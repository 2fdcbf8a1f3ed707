# chicken.ai `/ask` conversation memory

The chicken.ai bot answers the `/ask` slash command by relaying a user's
question, together with a short per-user conversation history, to a hosted
completion model. This project models the part of the handler that is logic
rather than platform glue:

- the **conversation store** (`user_memory`): a map from a user's id string to
  that user's list of role-tagged turns, seeded on first use with two fixed
  system turns, and appended to on every request. After a successful
  reply, a history longer than `MAX_MEMORY_MESSAGES + 2` (10) turns is cut
  back to its two system turns plus its last `MAX_MEMORY_MESSAGES` (8)
  turns; a shorter one is left as it is;
- the **guard against guessing**: a stripped reply that, lowercased, contains
  `"i think"` or `"maybe"` is replaced by a fixed refusal;
- the **request step**: the channel gate, seeding, the user turn, the
  completion outcome, the guard, the assistant turn and the trim, as a pure
  transition over the whole store, and `Run`, a sequence of such steps.

The completion call is an input to the step (`Completed(content)` or
`Raised`). The two configuration constants, the allowed channel and
`MAX_MEMORY_MESSAGES`, are the fields of `Config`; `Deployed` holds the
values in `main.py`.

Files: `turns.dfy` (turns, histories, the seed), `text.dfy` (lowercasing,
substring test, strip), `guard.dfy` (the filter), `userid.dfy` (the decimal
key of a user id), `store.dfy` (seed, append, trim), `ask.dfy` (the handler),
`examples.dfy` (two worked conversations).

Notes:

- The filter's output equals the refusal exactly when the reply hedges,
  except for one input: a reply that is itself the refusal text passes
  unchanged and also equals the refusal. `Guard.Filter` therefore states the
  two implications, plus that its output never hedges, rather than an
  if-and-only-if on the output.
- Python's `h[-k:]` with `k == 0` is the whole list, so with a window of 0
  the trim would lengthen a history (`Store.TrimZeroKeepGrows`). The deployed
  window is 8, so the trim properties are stated for windows of at least 1.
- The window bound is re-established only by a successful request; failed
  requests each leave one more turn behind (`Ask.RunFailuresAccumulate`), so
  "at most 10 turns" is not an invariant of every state. The bound is stated
  for runs of successful requests (`Ask.RunSucceedingBounded`).
- The completion client is the synchronous `OpenAI` client (main.py:4, 7), and
  its call at main.py:69 is not awaited. Between the channel check's `defer`
  (main.py:46) and the final `followup.send` (main.py:97) the handler never
  yields to the event loop, so the whole memory update of one request runs
  without interruption. `Ask.Step` and `Ask.Run` describe the handler exactly,
  with no interleaving between requests left out.

## Model

| member | source | states |
|---|---|---|
| Text.Lower | main.py:79 | lowercasing keeps the length and lowercases each character in place |
| Text.Contains | main.py:79 | Python's `p in s`: `p` is a prefix of `s` or of one of its suffixes; `Text.ContainsIff` relates it to occurrence at an index |
| Text.IsSpace | main.py:76 | the characters `str.strip()` removes: those for which Python's `str.isspace()` holds |
| Text.ContainsIff | main.py:79 | the scanning substring test holds exactly when the pattern occurs at some index of the text |
| Text.SkipLeft | main.py:76 | the scan from the left passes only whitespace and stops at the first non-whitespace character or the end |
| Text.SkipRight | main.py:76 | the scan from the right passes only whitespace and stops just after the last non-whitespace character or at its lower limit |
| Text.Strip | main.py:76 | the result is a contiguous slice of the input with only whitespace outside it and no whitespace at either end |
| Text.StripUnchanged | main.py:76 | text with no whitespace at either end is returned as it is |
| Guard.Hedges | main.py:79 | the guard's test: the lowercased reply contains "i think" or "maybe"; `Guard.HedgesIff` states what it means |
| Guard.HedgesIff | main.py:79 | the guard's test holds exactly when "i think" or "maybe" occurs somewhere in the lowercased reply |
| Guard.NoTriggerLetters | main.py:79 | text with no `k`/`K` and no `b`/`B` never trips the guard |
| Guard.RefusalDoesNotHedge | main.py:80-83 | the refusal text itself contains neither trigger in any case |
| Guard.Filter | main.py:79-83 | a reply with a trigger becomes the refusal, any other reply is returned unchanged, and the output never contains a trigger |
| Guard.FilterIdempotent | main.py:79-83 | filtering a filtered reply changes nothing |
| UserId.Decimal | main.py:48 | the key of a user id is a non-empty string of digits with no leading zero |
| UserId.ValueOfDecimal | main.py:48 | reading the key back as a number gives the user id |
| UserId.DecimalInjective | main.py:48 | distinct user ids give distinct store keys |
| Turns.SeedPinned | main.py:51-61 | the seed itself starts with the two system turns |
| Store.Init | main.py:50-61 | a user without an entry gets exactly the two system turns; an existing entry and every other entry are unchanged |
| Store.Append | main.py:64-66 | the old history is kept as a prefix, the turn becomes the new last entry, other users are unchanged |
| Store.LastN | main.py:94 | Python's `h[-k:]`: a suffix of `h`, the whole list for `k == 0`, and otherwise `min(k, length)` turns |
| Store.Trim | main.py:91-95 | a history within `keep + 2` is unchanged; for a window of at least 1, a longer one keeps its first two turns and then its last `keep` turns in order, `keep + 2` in all |
| Store.TrimSplitsHistory | main.py:91-95 | the dropped turns are exactly the oldest ones after the first two: kept head, dropped block and kept tail concatenate back to the input |
| Store.TrimCut | main.py:92-95 | a trim that cuts keeps the first two turns and then exactly the last `keep` turns |
| Store.TrimKeepsLastTwo | main.py:94 | with a window of at least two, the last two turns survive a trim |
| Store.AppendPairThenTrim | main.py:86-95 | appending a question and its answer and trimming leaves `min(length + 2, keep + 2)` turns ending with those two |
| Store.AppendKeepsPinned | main.py:64-66 | appending turns keeps the system turns in front |
| Store.TrimLength | main.py:91-95 | for a window of at least 1, a trim leaves `min(length, keep + 2)` turns, 10 with `MAX_MEMORY_MESSAGES` = 8 (main.py:27) |
| Store.TrimKeepsPinned | main.py:92-93 | a history that starts with the two system turns still does after a trim |
| Store.TrimIdempotent | main.py:91-95 | trimming a trimmed history changes nothing |
| Store.TrimZeroKeepGrows | main.py:94 | with a window of 0 Python's `[-0:]` keeps the whole list, so the trim adds two turns |
| Store.TrimEntry | main.py:91-95 | only the given user's entry is trimmed; the key set and every other entry are unchanged |
| Ask.Prompt | main.py:69-71 | the completion call is given the user's (seeded) history followed by exactly the question as a user turn |
| Ask.Message | main.py:39-42 | the text each response puts on screen: the fixed rejection, the answer itself, or the fixed error text of main.py:101-103 |
| Ask.StepMessages | main.py:99-103 | a request outside the allowed channel is answered with the rejection text, and a raised completion with the error text |
| Ask.Step | main.py:35-103 | a request outside the allowed channel changes nothing and is rejected; otherwise the store gains at most the asking user's key and no other user's entry changes |
| Ask.NewUserSeeded | main.py:51-66 | a new user's prompt is the two system turns in order followed by the question |
| Ask.FailureKeepsQuestion | main.py:64-66 | on a raised completion the history is the previous one plus exactly the user turn, untrimmed, and the user gets the error reply |
| Ask.SuccessAppendsAndTrims | main.py:76-95 | on success the history is the trim of the previous one plus the question and the guarded stripped reply, and that reply is sent |
| Ask.SuccessWindow | main.py:86-95 | after a success the history has `min(previous + 2, keep + 2)` turns and ends with the question and the reply |
| Ask.AnswerIsGuarded | main.py:76-83 | the answer sent never hedges: the refusal when the stripped reply has a trigger, the stripped reply otherwise |
| Ask.StepKeepsUserPinned | main.py:51-95 | the asking user's history still starts with the system turns after a request, whatever the completion did |
| Ask.StepKeepsPinned | main.py:51-95 | every history in the store keeps the system turns in front across a request |
| Ask.SuccessKeepsBounded | main.py:86-95 | a successful request keeps every history within `keep + 2` turns |
| Ask.Run | main.py:26 | the store after a sequence of requests; no user's entry is ever removed |
| Ask.RunKeepsPinned | main.py:51-95 | the system turns stay pinned across any sequence of requests |
| Ask.RunSucceedingBounded | main.py:91-95 | while every completion succeeds, no history outgrows `keep + 2` turns |
| Ask.RunFailuresAccumulate | main.py:99-103 | each failed request of a user leaves exactly one more turn, so the bound can be exceeded until the next success |
| Ask.RunIsolatesUsers | main.py:48-66 | requests of other users never create, change or remove this user's entry |
| Conversations.PlainFirstAnswer | main.py:51-95 | a new user's first answer that needs neither stripping nor guarding is sent unchanged and the history is the two system turns, the question and the answer |
| Conversations.FirstQuestion | main.py:51-95 | user 42 asking for the capital of France and told Paris gets that answer back and a history of 4 turns |
| Conversations.QuestionOnFullHistory | main.py:91-95 | a question on a full 10-turn history gives 12 turns before the trim and 10 after: the system turns, then the 8 most recent turns in order |

## Left out

- Discord plumbing (`bot`, intents, `on_ready`, command registration, `defer`, `followup.send`, the `ping` command, `bot.run`): platform I/O.
- The OpenAI client and the `chat.completions.create` call with its model name, `max_tokens` and `temperature`: the call is the `Completion` input of `Ask.Step`; a `None` message content, whose `strip()` raises, is one of the ways to get `Raised`.
- A failure of `followup.send` after a successful trim: the memory is then as on success while the user is sent the error reply; the model pairs the success memory with the answer.
- Reading credentials with `os.getenv` and the `print` logging of the exception: environment and logging.
- Text.Lower: lowercases ASCII letters only, because Python's full Unicode case mapping (for example the Kelvin sign lowercasing to `k`) is outside the model; replies whose only trigger comes from a non-ASCII capital are not refused in the model.
- Text.IsSpace follows the whitespace set of Python's `str.isspace()` from Unicode 6.3 on; older Unicode tables are not modelled.
