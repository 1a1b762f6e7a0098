# Completion core of a Discord chatbot, in Dafny

This project models the completion core of a Discord chatbot, `src/chatcompletion.py`. The core does two things:

- **Classification** (`generate_chatcompletion_response`). It turns the outcome of one chat-completion call into a `ChatCompletionData`: a status from `ChatCompletionResult`, an optional reply text and an optional status text. The outcome is a reply, an invalid-request error or any other exception. The reply is stripped with Python's `str.strip()`. An invalid-request error counts as "too long" when its `user_message` contains `"This model's maximum context length"`.
- **Dispatch** (`process_response`). It maps a `ChatCompletionData` to an ordered sequence of effects on the conversation's thread:
  - posts of the reply's chunks, or an "empty response" notice;
  - a flagged or blocked notification to the guild's moderation log;
  - a flagged or blocked notice;
  - an error notice;
  - closing the thread.

Modules:

- `Wrappers` (`wrappers.dfy`): `Option`, for Python's `Optional`.
- `Base` (`base.dfy`): the `Message(role, content)` record of `src/base.py`.
- `PyStr` (`pystr.dfy`): the two Python string operations the core uses, modelled exactly.
  - `Strip` is `str.strip()`. Its white-space set is that of `str.isspace()`.
  - `Contains` is `sub in s`.
- `ChatCompletion` (`chatcompletion.dfy`): the rest of the core.
  - The request payload built from the messages.
  - The classifier `Classify`, a pure function of an abstract `Outcome`.
  - The dispatcher `ProcessResponse`, an imperative method.

`ProcessResponse` acts on a `Thread` object. Its `trace` field records every effect in order: each `thread.send`, each moderation notification made on the thread's behalf, and the closing of the thread. Sending returns a handle, which is the new message's position in the trace. The flagged notification's `url` is that handle's jump link, or the literal `"no url"`. The method is proved to append exactly `Effects(user, data, split, base)` to the trace, where `base` is the trace's old length. The ordering and exclusion properties are lemmas about `Effects`.

The message splitter `split_into_shorter_messages` is not part of this model. It is a parameter `split: string -> seq<string>`, and nothing is assumed about the chunks it returns.

`generate_chatcompletion_response` is declared `-> ChatCompletionData`. When the stripped reply is empty and nothing is raised, the `if reply:` at src/chatcompletion.py:54 has no `else`, so the function falls off its end and returns `None`. `Classify` models this as written and returns `None`; see "## Findings".

## Model

| member | source | states |
|---|---|---|
| `PyStr.LeadingSpaces` | src/chatcompletion.py:53 | the count of leading characters that `str.isspace()` accepts: all of them are white space, and the next character is not |
| `PyStr.TrailingSpaces` | src/chatcompletion.py:53 | the same count at the end of the string |
| `PyStr.Strip` | src/chatcompletion.py:53 | `.strip()` leaves a slice of the input with only white space outside it, and the slice neither starts nor ends with white space; the result is empty iff the input is all white space |
| `PyStr.StripUnique` | src/chatcompletion.py:53 | any slice with those properties is the result of `Strip`, so the result is fully determined |
| `PyStr.StripIdempotent` | src/chatcompletion.py:53 | stripping an already stripped string changes nothing |
| `PyStr.Contains` | src/chatcompletion.py:59 | Python's `sub in s` is true iff `sub` occurs in `s` at some index |
| `PyStr.ContainsInfix` | src/chatcompletion.py:59 | a string with `sub` in its middle contains `sub` |
| `ChatCompletion.RequestPayload` | src/chatcompletion.py:46 | the payload has one dictionary per message, in the same order, with exactly the keys "role" and "content", copied unchanged from the message |
| `ChatCompletion.PayloadReadsBack` | src/chatcompletion.py:46 | reading each payload entry back as a message gives the original message |
| `ChatCompletion.RequestPayloadInjective` | src/chatcompletion.py:46 | two different message lists never give the same payload |
| `ChatCompletion.Classify` | src/chatcompletion.py:40-74 | returns nothing iff the outcome is a reply that is all white space. A non-blank reply gives OK, with the stripped reply and no status text. An invalid-request error gives TOO_LONG iff its user message contains the context-length marker, and INVALID_REQUEST otherwise; both carry `str(e)` and no reply. Any other exception gives OTHER_ERROR with `str(e)`. With a string `user_message`, no exception derived from `Exception` escapes. A moderation status is never produced |
| `ChatCompletion.ContextLengthErrorIsTooLong` | src/chatcompletion.py:58-62 | an invalid-request error whose user message has the marker anywhere in it classifies as TOO_LONG, with `str(e)` as status text |
| `ChatCompletion.ClassifiedReplyIsStripped` | src/chatcompletion.py:53-57 | the reply passed on with OK is a fixed point of `strip()` |
| `ChatCompletion.BlankReplyYieldsNothing` | src/chatcompletion.py:53-57 | every white-space-only reply with no exception returns no `ChatCompletionData` at all (as written) |
| `ChatCompletion.ClassifyComplete` | src/chatcompletion.py:40-74 | corrected classifier: always returns data; it agrees with `Classify` wherever `Classify` returns data, and reports a blank reply as OK with an empty reply |
| `ChatCompletion.Thread.Send` | src/chatcompletion.py:94 | `thread.send` appends one post to the trace and returns a handle to that post's position |
| `ChatCompletion.Thread.Close` | src/chatcompletion.py:125 | `close_thread` appends exactly one close action |
| `ChatCompletion.Thread.NotifyFlagged` | src/chatcompletion.py:96-102 | the flagged notification carries the user, the flagged reason, the reply and the url, and appends exactly one action |
| `ChatCompletion.Thread.NotifyBlocked` | src/chatcompletion.py:111-116 | the blocked notification carries the user, the blocked reason and the reply, and appends exactly one action |
| `ChatCompletion.ChunkPostsAt` | src/chatcompletion.py:92-94 | the loop over the chunks posts each chunk exactly once, at its own index |
| `ChatCompletion.ChunkPostsSnoc` | src/chatcompletion.py:93-94 | one more loop iteration appends exactly the next chunk's post |
| `ChatCompletion.ProcessResponse` | src/chatcompletion.py:76-139 | the dispatcher appends exactly `Effects` of its data to the thread's trace. The loop invariant says the trace holds the posts of the chunks sent so far, and `sent_message` points at the last of them (or is None before the first) |
| `ChatCompletion.ReplyPostsArePosts` | src/chatcompletion.py:82-94 | the OK path only posts to the thread: it never notifies and never closes |
| `ChatCompletion.EmptyReplyOneNotice` | src/chatcompletion.py:84-90 | an absent or empty reply gives exactly one "empty response" notice; the result is the same for every splitter, so the splitter plays no part |
| `ChatCompletion.ReplyChunksSentInOrder` | src/chatcompletion.py:91-94 | a non-empty reply is posted as the chunks of `split(reply)`, each once, in order, and nothing else |
| `ChatCompletion.OkSendsOnlyReply` | src/chatcompletion.py:82-94 | for OK the effects are exactly the reply posts, and all of them are posts |
| `ChatCompletion.FlaggedOrder` | src/chatcompletion.py:95-109 | for MODERATION_FLAGGED, all reply posts (or the empty-response notice) come first. Exactly one flagged notification follows, carrying the status text and the reply. The flagged notice comes last, and nothing else happens |
| `ChatCompletion.FlaggedLink` | src/chatcompletion.py:101 | the flagged notification's url is the link to the last message sent for the reply. It is "no url" iff nothing was sent, which happens iff the reply is non-empty and splits into no chunks |
| `ChatCompletion.BlockedNeverSendsReply` | src/chatcompletion.py:110-123 | for MODERATION_BLOCKED, the effects are exactly the blocked notification (with the status text and the reply) and then the blocked notice; no text is ever posted |
| `ChatCompletion.ErrorStatusEffects` | src/chatcompletion.py:124-139 | TOO_LONG only closes the thread. INVALID_REQUEST posts one "**Invalid request** - " notice with the status text. Any other status posts one "**Error** - " notice |
| `ChatCompletion.NotificationsOnlyForModeration` | src/chatcompletion.py:95-116 | statuses other than the two moderation ones never send a moderation notification |
| `ChatCompletion.ClassifiedNeverNotifies` | src/chatcompletion.py:43-74 | whatever the corrected classifier reports, dispatching it never sends a moderation notification |
| `ChatCompletion.BlankReplyGetsEmptyNotice` | src/chatcompletion.py:84-90 | with the corrected classifier, a blank reply is answered with exactly the "empty response" notice |

## Left out

- The `openai.ChatCompletion.create` call and its sampling parameters (model, temperature, top_p, max_tokens, stop sequence, user tag) are not modelled. The call's result is the abstract `Outcome` input. The model builds only the `messages` argument.
- Extracting `response.choices[0].message.content` is not modelled. If it raised, the exception would be an `OtherException` outcome.
- Classify: assumes `e.user_message` is a `str`. In the SDK it can be `None`. Then the test `... in e.user_message` at src/chatcompletion.py:59 raises `TypeError` inside the `except InvalidRequestError` handler. The sibling `except Exception` at line 70 does not catch that, so the exception escapes the function. The model has no such outcome. Exceptions that derive only from `BaseException`, such as `KeyboardInterrupt` or `SystemExit` raised during the call at line 44, are not caught by `except Exception` at line 70 either; they escape too, and `Outcome` has no case for them.
- ProcessResponse: assumes that `thread.send`, `close_thread` and the two moderation senders return normally. None of the awaits at src/chatcompletion.py:85-139 is inside a `try`. If a collaborator raises, for example Discord rejecting an empty chunk, the source stops dispatching at that point and the exception propagates. The real effects are then a strict prefix of `Effects`. For example, a flagged reply whose chunk send fails never sends the moderation notification. The postcondition of `ProcessResponse`, and the "exactly one" claims of `FlaggedOrder` and `BlockedNeverSendsReply`, hold only under this assumption.
- The texts `e.user_message` and `str(e)` are independent strings in the model. The exact format `openai` gives `str(e)` is not modelled.
- `split_into_shorter_messages` is a parameter, and no chunk length is assumed. `close_thread` and the two moderation senders are trace actions. Their own code is not part of this model.
- Discord rendering is not modelled. Embed colours are two constants. A jump link is the message's position in the trace, not a URL string. The thread's guild is implicit in the `Thread` object.
- `async`/`await` are not modelled: the flow is sequential, and the model runs it as ordinary sequential code.
- The `logger.exception` calls are not modelled, because they only log.
- `MyEncoder`, the unused `moderate_message` import and `MY_BOT_NAME` are left out, because the core does not use them.
- The numeric values 0 to 5 of `ChatCompletionResult` are left out. Only identity comparisons are made on them.
- `Config` in `src/base.py` is left out, because the core does not use it.

## Findings

| source | as written | input that shows it | evidently intended | confidence | as-written member | corrected member |
|---|---|---|---|---|---|---|
| src/chatcompletion.py:40-57 | The function is declared to return a `ChatCompletionData`. When the stripped reply is empty and nothing is raised, it falls off its end and returns `None`. | a reply `" \n\t"` with no exception | Return OK with an empty reply. The dispatcher already answers that case with the "**Invalid response** - empty response" notice (lines 84-90). | medium; not executed | `ChatCompletion.BlankReplyYieldsNothing` | `ChatCompletion.ClassifyComplete` |
