# bedrockchat bot core, modelled in Dafny

This project models the logic of the chat bot and of the image-generation wrapper in
bedrockchat. The bot long-polls a chat platform for updates and classifies each message
text as `/start`, `/ask`, `/image` or anything else. It keeps a per-chat log of asked
questions and answers through a text backend and an image backend. The model covers:

- the command classifier and dispatcher of `handle_updates` (main.py);
- the per-chat session log `user_sessions` that `handle_ask` updates in place (main.py);
- one step of the polling loop `run_telegram_bot`, which moves the offset (main.py);
- `create_image` in two forms: the single attempt in main.py, which the bot uses, and the
  loop in gagan.py, which makes up to 5 attempts and backs off 60 s after a throttling error.

The external services are replaced by abstract outcomes:

- The text backend is a function from (invocation number, language, question) to an answer
  or a failure.
- The image backend is a function from (invocation number, prompt) to a `Response`. A
  `Response` is either an exception with its message text, or a body in which the "images"
  key may be missing.
- Base64 decoding is left abstract. Each image entry is either the bytes it decodes to or
  an entry that fails to decode.
- Messages and photos sent to the chat platform are appended to an outbox.
- Time spent in `time.sleep` is counted in seconds, in ghost state.

Files:

- `wrappers.dfy`: `Option`.
- `text.dfy`: the Python string operations used (`startswith`, `s[n:]`, `in`).
- `commands.dfy`: `Classify`.
- `image_generation.dfy`: both `create_image` variants and the retry function `Retry`.
- `bot_spec.dfy`: dispatch, the batch walk and the polling step, as functions on an explicit
  `BotState`.
- `bot.dfy`: class `Bot`. Its fields are the session map, the outbox, the backend call
  counters and the offset. Its methods are proved equal to the `bot_spec.dfy` functions.

Points where the code behaves differently from what its command surface suggests:

- The code tests the prefix `/ask`, not `/ask ` with a space. It then cuts the text at
  index 5, so the character after `/ask` is lost whatever it is: `/askhello` asks `ello`.
  `/image` works the same way, with the cut at index 7.
- The bot's `/image` path calls main.py's single-attempt `create_image`. That function
  never retries, returns None on a throttling error, and sleeps 60 s after every call that
  returned. Only gagan.py's `create_image` retries, and no bot code calls it.
- A session entry is created on the first `/ask` from a chat, not on its first message.
- The help reply is a fixed text. It does not echo the unrecognised text.
- `handle_image` sends a photo only when the decoded image is non-empty (`if image_data:`).
  An empty decoded image produces the failure text.

## Model

| member | source | states |
|---|---|---|
| `Text.SliceFrom` | main.py:147-150 | Python's `s[n:]`: the suffix from `n`, empty when `n` is past the end, with `s` = prefix + result |
| `Text.ContainsIff` | gagan.py:98 | the substring test holds exactly when the marker occurs at some position of the exception text |
| `Commands.Classify` | main.py:144-153 | `/start` is tested first, then `/ask`, then `/image`, else help; Ask carries `text[5:]` and Image `text[7:]` |
| `Commands.PrefixesExclusive` | main.py:144-151 | no text starts with two of the three prefixes, so the order of the tests never changes the outcome |
| `Commands.StartWins` | main.py:144-145 | any text beginning with `/start` is Start, whatever follows |
| `Commands.AskRoundTrip` | main.py:146-148 | `"/ask " + q` classifies as Ask with exactly `q`, for every `q` |
| `Commands.ImageRoundTrip` | main.py:149-151 | `"/image " + p` classifies as Image with exactly `p`, for every `p` |
| `Commands.ArgumentDropsNextChar` | main.py:146-151 | the character right after `/ask` or `/image` is dropped whatever it is (`/askhello` asks `ello`) |
| `Commands.ShortArgumentIsEmpty` | main.py:146-151 | a command text no longer than the cut gives an empty question or prompt; bare `/ask` and `/image` give `""` |
| `ImageGeneration.AttemptOf` | gagan.py:76-102 | one attempt backs off exactly on a throttling exception; it yields an image exactly when the body has a decodable first entry in "images", and that image is this entry's bytes |
| `ImageGeneration.CreateImageOnce` | main.py:60-93 | never raises; any exception gives None; an image exactly when the body carries one; sleeps 60 s only when the call returned; otherwise the same result as one retry-loop attempt, with None where that attempt would retry |
| `ImageGeneration.RetryFrom` | gagan.py:75-105 | at least 1 and at most 5 invocations; sleeps are all invocations, or all but the last; an image implies exactly one fewer sleep than invocations |
| `ImageGeneration.RetryStopsAt` | gagan.py:88-102 | if attempts 0..k-1 were throttled and attempt k was not, the call ends there with attempt k's result, after k+1 invocations and k sleeps (non-throttling error, missing images and decoded image alike) |
| `ImageGeneration.RetryExhausted` | gagan.py:75-105 | five throttled attempts give None after exactly 5 invocations and 5 sleeps, 300 s in all |
| `ImageGeneration.RetryShape` | gagan.py:75-105 | every result is explained by the responses: all attempts before the last were throttled, and the last decided the result or was the fifth throttled one |
| `ImageGeneration.RetryImageIff` | gagan.py:75-102 | the result is an image exactly when some attempt k < 5 carries one and all attempts before k were throttled; the image is that attempt's first entry |
| `ImageGeneration.CreateImageWithRetry` | gagan.py:58-105 | the loop returns the result of `ImageGeneration.Retry`, with its invocation count (at most 5) and 60 s per sleep |
| `BotSpec.RecordQuestion` | main.py:106-110 | after an ask, the asking chat has an entry that is its old list (or empty) plus the question |
| `BotSpec.RecordQuestionAt` | main.py:106-110 | the first ask creates `[question]`; every other chat's entry, and whether it exists, is unchanged |
| `BotSpec.UpdateSessionsAt` | main.py:106-110 | one update appends its `/ask` question to its own chat's list only |
| `BotSpec.ImageReply` | main.py:121-130 | a photo with the fixed caption exactly when the image is present and non-empty, else the failure text, always to the asking chat |
| `BotSpec.Dispatch` | main.py:103-130 | only an `/ask` whose text backend call fails raises; every other command sends exactly one action to the chat; only `/ask` changes the sessions; a completed `/ask` sends the text backend's answer to the chat, and every `/ask` takes the 2 s delay; each backend is invoked once per command of its kind |
| `BotSpec.HandleUpdate` | main.py:139-153 | an update without a message changes nothing; a message without text raises with no effect; a handled message sends one action to its chat; a raise sends nothing; a text backend raise comes from an `/ask` whose backend call failed with that error |
| `BotSpec.MessageReplies` | main.py:144-153 | `/start` sends the greeting and other text sends the help text, nothing else changing; `/image` invokes the image backend once and sends the photo or the failure text |
| `BotSpec.HandleBatchFrom` | main.py:138-153 | the walk takes updates in order; it completes only at the end of the batch, and when it stops early the last update taken is a message without text (the `MissingText` raise) or an `/ask`; a text backend raise is the failure of the last text backend call, made with that `/ask`'s question; a batch from which no update can raise always completes |
| `BotSpec.BatchCompletesFrom` | main.py:138-153 | a handler that returns lets the loop go on: when every message carries text and the text backend answers every call, the batch is taken to its end and completes |
| `BotSpec.UpdateReplies` | main.py:139-153 | the outbox only grows; a handled update adds its chat to the recipients; a raising one adds nothing |
| `BotSpec.BatchRepliesInOrder` | main.py:138-153 | the outbox keeps its old content, and the recipients of what a batch sends are the chats of its message-bearing updates, one each, in input order |
| `BotSpec.BatchSessions` | main.py:106-153 | each chat's list grows by exactly its `/ask` questions among the updates taken, in order; a question whose backend call raised is still recorded; a chat gets an entry exactly when it had one or asked |
| `BotSpec.RedeliveredAskCountsTwice` | main.py:106-117 | handling the same `/ask` update twice records the question twice and sends two replies to the chat |
| `BotSpec.NextOffset` | main.py:159-161 | after a non-empty result the offset is the last update's id + 1; a missing or empty result leaves it unchanged |
| `BotSpec.CursorPastBatch` | main.py:158-161 | with increasing update ids, the new offset is the batch's highest id + 1, above every id of the batch, and it moves forward when the batch starts at or above the old offset |
| `BotSpec.PollStep` | main.py:155-161 | an empty or missing result changes nothing; if the batch raises, the loop stops with the offset unchanged; otherwise the offset advances |
| `TelegramBot.Bot.constructor` | main.py:22 | the bot starts with no sessions, an empty outbox, no backend calls and no offset |
| `TelegramBot.Bot.SendText` | main.py:97-101 | one text message is appended to the outbox |
| `TelegramBot.Bot.HandleStart` | main.py:103-104 | the greeting is sent to the chat |
| `TelegramBot.Bot.HandleAsk` | main.py:106-117 | updates the session map in place (create or append) before the backend call; it raises exactly when the backend fails; otherwise it sends the answer |
| `TelegramBot.Bot.HandleImage` | main.py:121-130 | one single-attempt generation, then exactly one action: a photo exactly when a non-empty image was decoded |
| `TelegramBot.Bot.HandleOne` | main.py:140-153 | one loop iteration has the effect `BotSpec.HandleUpdate` gives for that update |
| `TelegramBot.Bot.HandleUpdates` | main.py:138-153 | the loop's final state, halt and count of processed updates are those of `BotSpec.HandleBatch` |
| `TelegramBot.Bot.PollOnce` | main.py:155-161 | one polling iteration moves the state and the offset as the polling step specifies, and reports whether the loop goes on |

## Left out

- HTTP transport: `send_message`, `get_updates`, the `sendPhoto` post and `send_log_to_telegram`. Sends are outbox entries, and a fetch is the parameter `result` of `PollOnce`. Network errors, which the code does not catch, are not modelled. Neither is the offset passed to `get_updates`.
- Text generation (`my_chatbot`, the prompt template and `LLMChain`) and `invoke_model` are foreign library calls. They are abstract per-invocation outcomes. The image generation parameters (size, seed, quality) are not modelled because no branch depends on them.
- `json.loads` and base64 decoding are library code. A body that is not valid JSON is not modelled. Its exception would carry no throttling marker, so both variants would return None.
- `time.sleep` is counted in seconds (the 2 s before each question and the 60 s sleeps) and does not model time itself.
- A message is assumed to always have its `"chat"`/`"id"` keys, and an update its `"update_id"`. A missing `"text"` key is modelled as the batch raising.
- The infinite `while True` of `run_telegram_bot` is modelled as one iteration. Starting the thread at import time is not modelled.
- The Streamlit UI, page styling and scripts, the Flask health check and logging are presentation or process plumbing with no bot logic.
- Concurrent use of the backends from the UI while the bot thread runs is not modelled.
- BotSpec.BatchRepliesInOrder: states only the recipients and order of the outbound actions across a batch. The content of each action is stated per update by `BotSpec.MessageReplies` (greeting, help, image) and `BotSpec.Dispatch` (the `/ask` answer).
