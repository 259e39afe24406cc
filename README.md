# nevara-bot: the generation and conversation core, in Dafny

nevara-bot is a Telegram bot (aiogram 2) that generates images with one of two backends: Kandinsky
(FusionBrain) or Stable Diffusion (HuggingFace inference). This project models the logic under the
chat and HTTP glue:

- **Kandinsky client** (`kandinsky.dfy`). generate_kandinsky lists pipelines and takes the first
  id. It submits one GENERATE job (1 image, 1024×1024, the prompt as query), then polls the job
  status at most 30 times, sleeping 2 s after every status that is not `DONE`. It returns the
  decoded first file of the first `DONE`. Any exception yields `None`: at the listing, the
  submission, a poll, a missing key, or a failed decoding. The service is an oracle: its replies
  are inputs, and the requests issued are returned as a trace. `PollStatus` is the loop.
  `KandinskyRun` is its closed-form specification, built on `StopIndex`, the first poll that ends
  the loop.
- **Stable Diffusion client** (`stable_diffusion.dfy`). generate_sd returns the response body,
  wrapped in a `BytesIO` stream, exactly on HTTP 200. Otherwise, or on an exception, it returns
  `None`.
- **Delivery** (`delivery.dfy`). safe_send_photo makes up to 3 photo attempts and pauses 2 s
  after each `NetworkError`. After three of them it sends one fallback text. Any other error
  propagates. send_image_with_actions attaches the repeat/new keyboard. The attempt outcomes are
  an oracle, and the actions are returned as a trace.
- **Conversation** (`bot.dfy`). `Route` is aiogram's dispatch of an update to a handler, given the
  user's FSM state. `Session` is one user's state (`Idle` = no state, `ChoosingModel`,
  `WaitingForPrompt`), data map (`model`, `last_model`, `last_prompt`), and the outgoing actions
  in order. Its methods are the handlers create, choose_model, gen and repeat_or_new, and
  `Dispatch` routes one event. `generations` records every generator invocation.
- **Scenarios** (`scenarios.dfy`). These are whole conversations with concrete backends.

Shared pieces: `base.dfy` has `Option`, bytes, the two kinds of image and Python truthiness.
`traces.dfy` has repetition and counting in traces. `chat.dfy` has the notices, buttons and
actions of the chat.

Modelling decisions:

- **Handler state filters.** aiogram 2 registers a handler that has no `state=` argument with
  the state filter `None`. Such a handler only matches a user who has no FSM state. `Route`
  follows this:
  - start, the menu labels, create and repeat_or_new fire only in `Idle`;
  - in `WaitingForPrompt`, every text message goes to gen, including "Меню" and `/start`;
  - in `ChoosingModel`, no text message is handled.
  The repeat_or_new handler itself sets `choosing_model` from whatever state it runs in. Because
  of the filter, it only runs in `Idle`.
- **What `state.finish()` resets.** In aiogram 2, `state.finish()` resets the state *and* the
  stored data. The `Session.finishClearsData` flag makes this explicit: `true` is the code as
  written, `false` is the evidently intended behaviour (see Findings).
- **Errors escaping gen.** An error other than `NetworkError` escapes safe_send_photo, and then
  gen itself, before `state.finish()`. The user then stays in `WaitingForPrompt`.
- **Truthiness of the generator result.** Kandinsky returns `bytes`, which are falsy when empty.
  Stable Diffusion returns a `BytesIO`, which is always truthy. So an empty HTTP-200 body is
  still sent as a photo (`Image = RawBytes | Stream`, `Truthy`).

Where the system's own design description differs from the code, the model follows the code:

- A `FAILED` status does not end the polling early.
- A transport error during a poll is not tolerated: it raises, and the call yields `None`.
- "repeat" regenerates from the stored model and prompt. It does not replay cached bytes, and
  there is no result cache.
- There is no separate `Generating` state: the user stays in `waiting_for_prompt` until gen
  finishes.
- "new" does not clear the stored data.

## Model

| member | source | states |
|---|---|---|
| Kandinsky.StopIndex | main.py:96-102 | the first poll index at which the loop stops: every earlier reply is a status other than DONE, and that reply is not one (or the 30-poll budget is spent) |
| Kandinsky.PollStatus | main.py:96-102 | the loop returns the outcome of the reply at StopIndex (decoded image or exception), or the exhausted budget, and issues exactly one poll and one 2 s sleep per non-DONE reply, plus the final poll when a reply ends the loop before the budget is spent |
| Kandinsky.SettleReply | main.py:97-101 | the reply that ends the loop yields the decoded first file of a DONE; a transport error, a missing status, a DONE without files or an undecodable file raise |
| Kandinsky.GenerateKandinsky | main.py:75-106 | result and request trace equal KandinskyRun: listing, then the run request on the first pipeline id, then the poll trace; every exception path yields None |
| Kandinsky.PollTraceCounts | main.py:96-102 | the poll trace holds min(n+1, 30) status requests and n sleeps and nothing else |
| Kandinsky.AtMostThirtyPolls | main.py:96-98 | whatever the service answers, at most 30 status requests are issued |
| Kandinsky.FirstDoneWins | main.py:96-101 | if poll k is the first DONE and decodes, the result is its decoded file, after exactly k+1 polls and k sleeps, with no request after that poll |
| Kandinsky.NeverDoneTimesOut | main.py:96-106 | if none of the 30 replies is DONE the result is None after 30 polls and 30 sleeps, with no 31st poll |
| Kandinsky.FailedKeepsPolling | main.py:99-102 | FAILED statuses do not end the loop: after k+1 of them another poll follows unless the budget is spent |
| Kandinsky.ImageIffDoneWithinBudget | main.py:76-106 | an image is returned iff the job was listed and submitted and some poll within 30 is a decodable DONE preceded only by non-DONE statuses; every other path, exceptions included, yields None |
| Kandinsky.EarlyFailuresIssueNoPoll | main.py:76-93 | a failed listing or submission yields None and issues no poll and no sleep; a failed listing issues nothing after the listing |
| Kandinsky.SubmittedParams | main.py:77-92 | the run request carries type GENERATE, numImages 1, width and height 1024, query equal to the prompt, on the first listed pipeline id |
| StableDiffusion.GenerateSd | main.py:110-122 | an image is returned iff the POST succeeded with status 200, and it is the response body as a stream |
| StableDiffusion.SdSuccessIsTruthy | main.py:117-118 | a 200 response counts as an image even with an empty body, while empty bytes do not |
| Delivery.FirstNonNetwork | main.py:127-132 | the first attempt that is not a NetworkError: all earlier ones are, and it is not (or all 3 are) |
| Delivery.SafeSendPhoto | main.py:126-133 | outcome and actions equal DeliveryOf and DeliveryTrace: a photo attempt and a 2 s pause per NetworkError, then the last attempt or, after three NetworkErrors, the fallback text |
| Delivery.SendImageWithActions | main.py:137-143 | the delivery of safe_send_photo with the repeat/new keyboard on every photo attempt |
| Delivery.DeliveryTraceShape | main.py:126-133 | a delivery stopping at attempt n holds min(n+1, 3) photo attempts, n pauses, the fallback text once exactly when n = 3, and nothing else |
| Delivery.DeliveryStartsWithPhoto | main.py:127-129 | every delivery starts with a photo attempt |
| Delivery.AtMostThreeAttempts | main.py:127-129 | at most 3 photo attempts, whatever the transport does |
| Delivery.SuccessAfterNetworkErrors | main.py:127-131 | n < 3 network errors then a success: delivered on attempt n+1, no fallback text, nothing after that attempt |
| Delivery.FallbackIffThreeNetworkErrors | main.py:127-133 | the fallback text is sent exactly once iff all 3 attempts raise NetworkError, as the last action after exactly 3 attempts, and never otherwise |
| Delivery.OtherErrorPropagates | main.py:128-131 | an error other than NetworkError escapes at once with no pause, no retry and no fallback |
| Bot.Route | main.py:147-213 | create fires iff idle and the create label; choose_model iff choosing a model and model_kandinsky/model_sd; gen iff waiting for a prompt and any text; repeat_or_new iff idle and repeat/new; the menu handlers only when idle |
| Bot.ButtonsReachHandlers | main.py:137-143 | the model buttons reach choose_model while choosing a model, and the repeat/new buttons reach repeat_or_new once idle |
| Bot.TextRoutingOutsideIdle | main.py:189-190 | while waiting for a prompt every text is a prompt and callbacks go unhandled; while choosing a model texts go unhandled |
| Bot.Generate | main.py:199-202 | model_kandinsky goes to Kandinsky, any other model to Stable Diffusion |
| Bot.Respond | main.py:204-207 | a truthy result is delivered with the repeat/new keyboard; otherwise the one generation-error text is sent |
| Bot.AnswerByTruthiness | main.py:204-207 | the answer starts with the photo when the result is truthy; otherwise it is only the error text; only a delivery can raise |
| Bot.EmptyBytesAreAFailure | main.py:204-207 | empty Kandinsky bytes are answered with the generation-error text |
| Bot.Session.constructor | main.py:30 | a new user has no state, no data and no messages |
| Bot.Session.Create | main.py:162-165 | sends the model keyboard and sets choosing_model, data untouched |
| Bot.Session.ChooseModel | main.py:180-185 | stores the chosen model, sets waiting_for_prompt, asks for the prompt and answers the callback |
| Bot.Session.Finish | main.py:209 | no state afterwards; the data is wiped too when finishing clears it |
| Bot.Session.Gen | main.py:189-209 | stores last_model/last_prompt, announces, invokes the generator of the stored model once, answers, then finishes, unless delivery raised, in which case state and stored data stay |
| Bot.Session.RepeatOrNew | main.py:213-241 | repeat never changes state or data; without a non-empty last model and prompt it sends only the no-data text and invokes no generator, else it regenerates from them; new sets choosing_model; when finishing clears data repeat never generates |
| Bot.Session.Dispatch | main.py:146-241 | each routed event has its handler's whole effect on state, data, messages and generator calls: the menu handlers send their one text, create, choose_model, gen (idle afterwards unless delivery raised) and repeat_or_new as their rows state; unhandled events change nothing; from idle only the create label and "new" change the state, from choosing_model only a model callback |
| Scenarios.FoxConversation | main.py:162-209 | create, Kandinsky, a prompt, DONE on the third poll: the photo goes out once with the repeat/new keyboard and the user is idle |
| Scenarios.TimeoutConversation | main.py:189-209 | a job that never finishes: one generation-error text and the user is idle |
| Scenarios.RepeatAfterGenerationAsWritten | main.py:195-224 | as written, repeat right after a successful generation only sends the no-data text and generates nothing |
| Scenarios.RepeatAfterGenerationIntended | main.py:217-236 | with the data kept across the finish, repeat regenerates from the stored model and prompt and delivers the new image |
| Scenarios.DispatchedConversation | main.py:162-209 | the create label, the Stable Diffusion button and a prompt, each routed through the dispatcher: the model menu, the prompt request, the generating notice and the photo with repeat/new go out, and the user is idle |

## Left out

- The HTTP calls, URLs and authentication headers are not modelled (`kandinsky_headers`, main.py:65-72, 112-113). They are network I/O: the replies are oracle inputs.
- The multipart and JSON encoding of the run request (main.py:87-92) is not modelled: the params are a record.
- `base64.b64decode` is an oracle function that yields bytes or fails.
- The Stable Diffusion request body `{"inputs": prompt}` (main.py:114-116) is not recorded: only the reply is an input.
- `time.sleep` and `asyncio.sleep` are recorded as `Sleep` and `Pause` entries. Time itself is not modelled.
- The wording of every text and the layout of every keyboard (main.py:42-61, 147-176) are left out. Texts are `Notice` values and inline buttons are their callback data. start, show_menu, help and profile are modelled only by their routing and the one text each sends (`Bot.MenuReply`).
- Failures of plain text sends and of callback answers (including the fallback text at main.py:133) are not modelled: they are assumed to go out.
- The `/start` command filter is approximated: `/start@botname`, case-insensitive matching and whitespace other than a space after `/start` (a newline or a tab) are not modelled. Non-text messages are not modelled, since the handlers only take text.
- The chat/user split of the storage and of send targets is not modelled. One `Session` object stands for one user's storage entry, so users are isolated by construction.
- Bot bootstrap, environment and credential loading, and logging (main.py:9-32, 245-246) are left out.
- The race between an in-flight gen and a newer event of the same user is left out. Handlers run one after another.
- A status value that is not a string is modelled as a string other than `DONE`. Non-JSON bodies and JSON of the wrong shape are modelled as the "unavailable" replies.
- The `KeyError` of `data["model"]` (main.py:192) is excluded by `Session.Valid()`: in `waiting_for_prompt` a model is always stored.

## Findings

| source | as written | input that shows it | evidently intended | confidence | as-written member | corrected member |
|---|---|---|---|---|---|---|
| main.py:195-224 | gen stores last_model and last_prompt, then `state.finish()` resets the state together with the data, so "repeat" never finds a stored model or prompt and always answers "no data" | create image, choose model_kandinsky, send "a red fox in snow", generation succeeds, press "repeat" | "repeat" regenerates from the last model and prompt, i.e. the data survives the finish (reset the state only) | not executed; high, given aiogram 2's finish() resetting the data | Scenarios.RepeatAfterGenerationAsWritten | Scenarios.RepeatAfterGenerationIntended |
