# openrouter_ai_chat, modelled in Dafny

A model of the core of `OpenRouterChat`, a command-line chat client for the
OpenRouter completions endpoint. It covers one chat turn and the conversation
state it updates:

- **Stream reassembly.** A 200 response body is read line by line in the `data:` framing of
  server-sent events (section 9.2 of the WHATWG HTML standard). Each line is one of:
  - a blank line or a line without the exact `data: ` prefix, which is skipped;
  - `data: [DONE]`, which stops the loop;
  - an unparseable payload, which is skipped;
  - a chunk whose first choice carries `delta.content`, which is appended and echoed;
  - a chunk whose first choice carries no content (a `finish_reason` chunk, say), which does nothing;
  - a chunk with no choices and an `error` key, which makes the reply `None`.
- **Status dispatch.** Only status 200 reads the body as an event stream. The categories 401, 400, 429,
  {500, 502, 503, 504} and any other status differ only in their diagnostic; each gives `None`.
- **Transcript commit and rollback.** The user message is appended speculatively. A
  truthy reply commits an assistant message. `None` or `""` pops the user message again.
- **Commands.** `exit`/`quit` in any case end the loop. `model <name>` changes only the model.
- **Piped mode.** The transcript sent is `[system, instruction, stripped content]`.
  `messages` is never touched.

Files:
- `wrappers.dfy`: `Option`.
- `strings.dfy`: Python's `strip`, `lower` and `startswith`.
- `event_stream.dfy`: line classification, the fold that specifies the loop, and the loop itself.
- `completion.dfy`: the response, the status dispatch and what one exchange yields.
- `conversation.dfy`: messages, the transcript invariant, commands, turn and session
  functions, and the class `Chat` with the source's methods.

`json.loads` is an input. Each loop takes a `parse` function from the stripped payload text
to a `Payload`:
- `Unparseable`: `JSONDecodeError`;
- `Malshaped`: the payload parsed, but some step of the loop body raises on it: the tests
  and lookups on the chunk, or the echo. The catch-all handler then returns `None`.
  Examples, not a complete list:
  - a number, a boolean or `null`;
  - a string or array for which `"choices" in chunk` or `"error" in chunk` is true;
  - a `choices` that is `null`, a number, a boolean or a non-empty object;
  - a first choice that is `null`, or whose `delta` is a number or a string containing
    "content";
  - a `delta.content` that is not a string (`null` among them);
  - a fragment that standard output cannot encode;
- `Object(choices, hasError)`. Any other string or array fails both `in` tests, so it
  behaves as `Object([], false)` and is skipped.

The HTTP client is an input as well: a `Response` is either a transport failure or a
status with its lines. A line is either decoded text or `Raises`, for a line whose reading
or UTF-8 decoding raised.

Standard output is modelled only as far as the reply fragments go, in the field `echo`.
The requests handed to the endpoint are logged in the field `sent`.

Behaviours of the code a reader might not expect, which the model keeps:
- A body with no fragments before `[DONE]` returns `""`, not a failure. The caller treats
  `""` as falsy and rolls back, so the transcript ends up the same.
- An `error` key counts only when `choices` is missing or empty. A chunk with choices is
  never an error.
- A user message may be empty: an empty line is sent as a turn.
- Only the exact prefix `data: ` is recognised. So is only the literal `[DONE]` after
  stripping.

## Model

| member | source | states |
|---|---|---|
| Strings.TrimStartShape | openrouter_ai_chat.py:88 | the left half of `strip()`: it drops only whitespace, from the front, and stops at a non-space character |
| Strings.TrimEndShape | openrouter_ai_chat.py:88 | the right half of `strip()`: it drops only whitespace, from the back, and stops at a non-space character |
| Strings.StripRemovesPadding | openrouter_ai_chat.py:88 | `strip()` of whitespace + text + whitespace is the text, when the text has no whitespace at either end |
| Strings.StripIdempotent | openrouter_ai_chat.py:197 | a stripped model name or payload has no surrounding whitespace, and stripping it again changes nothing |
| EventStream.Fold | openrouter_ai_chat.py:79-122 | the echoed text always extends what was accumulated, and a successful reply equals the echoed text |
| EventStream.Terminal | openrouter_ai_chat.py:90-116 | the index of the first line that stops (`[DONE]`) or aborts (error) the loop: no earlier line does |
| EventStream.FoldMeaning | openrouter_ai_chat.py:83-122 | the outcome of the loop, without the loop: echoed text = the fragments before the first stop/abort, in order; reply = that text unless an abort came first |
| EventStream.StopCuts | openrouter_ai_chat.py:90-91 | nothing after the first stop matters, and ending without one gives the same outcome |
| EventStream.SkipInvisible | openrouter_ai_chat.py:84-119 | a skipped step can be removed without changing the outcome |
| EventStream.AbortDiscards | openrouter_ai_chat.py:111-116 | an abort before any stop gives `None`, whatever was accumulated and echoed before it |
| EventStream.DoneCutsStream | openrouter_ai_chat.py:87-122 | on lines: everything after a `[DONE]` line is ignored, and a body cut off there yields the same reply |
| EventStream.SkippedLineInvisible | openrouter_ai_chat.py:84-119 | on lines: a line the loop skips can be dropped from the body without changing the result |
| EventStream.ErrorDiscardsReply | openrouter_ai_chat.py:96-116 | on lines: an error line before any `[DONE]` makes the reply `None`, though the earlier fragments were echoed |
| EventStream.NoiseIsSkipped | openrouter_ai_chat.py:84-110 | blank lines, lines without `data: `, unparseable payloads and chunks whose first choice has no content (a `finish_reason` chunk among them) are skipped; a first choice with content is appended even if it has a `finish_reason` |
| EventStream.ErrorChunks | openrouter_ai_chat.py:96-119 | a data line aborts exactly when its payload raises or it has no choices and an `error` key; a chunk with choices never does |
| EventStream.DoneLineStops | openrouter_ai_chat.py:87-91 | `data: ` + whitespace + `[DONE]` + whitespace stops the loop |
| EventStream.ReadStream | openrouter_ai_chat.py:79-122 | the loop itself: reply and echoed text equal the fold of the decoded lines, each fragment echoed when appended |
| Completion.OnlyOkIsRead | openrouter_ai_chat.py:78-151 | only status 200 reads the body as an event stream; any other status and any transport failure yield `None` and echo nothing |
| Completion.StatusCategories | openrouter_ai_chat.py:125-150 | the diagnostic branches: 401, 400, 429 and {500, 502, 503, 504} |
| Completion.OkReplyIsConcatenation | openrouter_ai_chat.py:83-122 | for status 200 the reply is the in-order concatenation of the fragments before the first `[DONE]`, unless an error line comes first |
| Conversation.TranscriptAlternates | openrouter_ai_chat.py:203-216 | in a well-formed transcript no two neighbouring messages have the same role |
| Conversation.ModelPrefixAnyCase | openrouter_ai_chat.py:196-198 | any six characters that lower to `model `, followed by any text, switch the model to that text stripped, in its original case |
| Conversation.CommandDispatch | openrouter_ai_chat.py:193-200 | `exit`/`quit` in any case quit; otherwise a `model ` prefix in any case switches to the original text from index 6, stripped; anything else is a message |
| Conversation.TurnCommitsOrRollsBack | openrouter_ai_chat.py:203-216 | a truthy reply appends user + assistant; `None` or `""` leaves `messages` exactly as before; the model is kept and the request carries the old transcript plus the user message |
| Conversation.TurnKeepsTranscript | openrouter_ai_chat.py:203-216 | a turn keeps the transcript well formed |
| Conversation.SessionGrowsByPairs | openrouter_ai_chat.py:189-216 | over a session the transcript stays well formed, only grows (index 0 is never removed) and grows by two per committed turn |
| Conversation.FreshSessionLength | openrouter_ai_chat.py:56 | from `__init__`, `len(messages) == 1 + 2 * successfulTurns` and index 0 is the system message |
| Conversation.QuitChangesNothing | openrouter_ai_chat.py:193-195 | `exit`/`quit` in any case ends the session with no change |
| Conversation.SwitchModelOnlyChangesModel | openrouter_ai_chat.py:196-200 | `model <name>` changes only the model and the session goes on with the next line |
| Conversation.SwitchModelIdempotent | openrouter_ai_chat.py:196-200 | giving the same `model <name>` twice in a row is the same as giving it once |
| Conversation.PipedTranscriptShape | openrouter_ai_chat.py:238-244 | piped mode sends exactly `[system, instruction, strip(content)]` |
| Conversation.Chat.constructor | openrouter_ai_chat.py:46-56 | a new session holds the given model and a transcript of only the system message |
| Conversation.Chat.SendMessageToAi | openrouter_ai_chat.py:58-178 | records the request `(model, history)`, echoes the fragments and returns the reply of the exchange |
| Conversation.Chat.Turn | openrouter_ai_chat.py:202-216 | the new state is the turn function of the old; `messages` is committed or restored exactly; the transcript stays well formed |
| Conversation.Chat.HandleLine | openrouter_ai_chat.py:191-216 | one pass of the loop: asks to stop exactly on `exit`/`quit`, otherwise switches the model or runs a turn, keeping the transcript well formed |
| Conversation.Chat.InteractiveChat | openrouter_ai_chat.py:189-227 | the loop's final state is the session function of the initial state and the lines typed |
| Conversation.Chat.HandlePipedInput | openrouter_ai_chat.py:229-255 | sends the transient transcript, leaves `messages` and `model` unchanged, exit status 0 exactly on a truthy reply |

## Left out

- API-key discovery from the environment or a `.env` file, and the `sys.exit` paths around it (lines 11-39, 258-265). This is configuration I/O.
- The HTTP request itself: URL, headers, JSON body and timeout (lines 49-54, 63-76). The request is logged as `(model, messages)` and its answer is an input.
- The individual exception handlers (lines 153-178). They all return `None`. A failure before a status is known is `TransportFailure`; one while reading the body is a `Raises` line.
- `json.loads`, `response.json()` and UTF-8 decoding are not modelled: they are the `parse` input and the `Line`/`Raises` split. The 400 branch parses the body only for its diagnostic, so it is omitted.
- All diagnostics on standard error, the prompts, the banner, the `Assistant (...)` prefix and the trailing newline on standard output. Only the echoed reply fragments are kept.
- `KeyboardInterrupt` and the tty/pipe dispatch of `__main__`, including its empty-pipe check (lines 267-280).
- Strings.LowerChar: only `A`-`Z` are lowered. No other character lowers to a letter of `exit`, `quit` or `model ` as a single character, so the command tests are unaffected.
- Conversation.RunSession: the service's answers are given one per typed line, and only the lines sent as messages use theirs.
