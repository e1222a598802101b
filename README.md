# Gemini bot adapter, modelled in Dafny

This project models the core of `GoogleGeminiBot` (`bot/gemini/google_gemini_bot.py`),
the adapter of a chat-on-WeChat bot to Google's Gemini API. The model covers:

- **The history normaliser `filter_messages`.** It scans the stored messages from newest to oldest. It keeps every system message. It keeps a user or assistant message only when its role is the one expected next. That repairs the history into alternating turns that end with a user turn.
- **The wire-format converter `_convert_to_gemini_messages`.** It maps each message to a `{"role", "parts"}` turn: user→"user", assistant→"model", system→"user". Any other role is dropped.
- **The grounding-prefix check inside `reply`.** When a configured prefix starts the newest turn's text, the prefix is removed, the text is stripped, and search grounding is requested.
- **The outcome logic of `reply`.** It gives the reply returned and the records appended to the session for each path: unsupported context, rate limit refused, answer, withheld answer, and failure.
- **Model-name normalisation in `__init__`.**

## Files

- `common.dfy`: `Option`.
- `pystr.dfy` (module `PyStr`): the Python string builtins the grounding check uses. These are `isspace`, `strip`, `startswith`, `find` and `replace(old, new, 1)`.
- `history.dfy` (module `History`): roles, messages, `filter_messages` as a loop proved against the right-fold `FilterFrom`/`Filtered`, and its properties.
- `wire.dfy` (module `Wire`): Gemini turns, `_convert_to_gemini_messages` as a loop proved against `Converted`, and its properties. This includes how it composes with the normaliser.
- `grounding.dfy` (module `Grounding`): the grounding block as a method proved against `Ground`, and its properties.
- `bridge.dfy` (module `Bridge`): the `Context` and `Reply` values the bot exchanges with the framework.
- `bot.dfy` (module `GeminiBot`): the `GoogleGeminiBot` class. It holds the configuration fields and the session store, which is a map from session id to messages. It also has `reply` and the response classifier.

Collaborators that the bot only calls are inputs to the model:

- the token bucket's verdict is a boolean;
- `generate_content` is a function parameter from (model name, turns, grounding flag) to an `ApiResponse`;
- the `conf()` values are constructor parameters.

## Model

| member | source | states |
|---|---|---|
| History.Flip | bot/gemini/google_gemini_bot.py:131-134 | user and assistant swap; any other role is left as it is |
| History.FilterMessages | bot/gemini/google_gemini_bot.py:116-135 | the reverse index loop with `insert(0, …)` and the flipping `turn` computes exactly the normalised history `Filtered` |
| History.FilterIsSubsequence | bot/gemini/google_gemini_bot.py:117-135 | the output is an order-preserving subsequence of the input, given by strictly increasing positions; it is never longer than the input, so empty input gives empty output |
| History.FilterKeepsSystemMessages | bot/gemini/google_gemini_bot.py:125-127 | the system messages of the output are exactly those of the input, in their original relative order |
| History.FilterAlternates | bot/gemini/google_gemini_bot.py:128-134 | counting back from the newest kept non-system message, roles alternate starting with the initially expected turn |
| History.FilteredAlternates | bot/gemini/google_gemini_bot.py:119-134 | the kept non-system messages are user/assistant only, neighbours differ in role, and the newest one is a user message |
| History.FilteredRolesKnown | bot/gemini/google_gemini_bot.py:124-130 | no kept message has a role other than user, assistant or system |
| History.FilteredEndsWithUserOrSystem | bot/gemini/google_gemini_bot.py:119-134 | the newest kept message, if any, is a user or a system message |
| History.NewestKept | bot/gemini/google_gemini_bot.py:119-134 | the newest message a scan keeps, if any, is a system message or has the role the scan expects first |
| History.FilteredNeighbours | bot/gemini/google_gemini_bot.py:125-134 | in the normalised history, two neighbouring non-system messages never share a role |
| History.FilterSplit | bot/gemini/google_gemini_bot.py:122-134 | scanning `a + b` scans `b` first and then `a`, expecting user or assistant according to the parity of the non-system messages kept from `b` |
| History.FilteredSuffix | bot/gemini/google_gemini_bot.py:122-135 | what is kept from a newer part of the history is a suffix of what is kept from the whole history |
| History.FilterDecision | bot/gemini/google_gemini_bot.py:124-134 | message i is kept exactly when it is a system message or has the role expected after the newer messages kept so far; a dropped message changes neither the result nor the turn |
| History.FilterExample | bot/gemini/google_gemini_bot.py:116-135 | the history user "hi", assistant "hello", user "bye" is kept whole and in order |
| Wire.WireRole | bot/gemini/google_gemini_bot.py:102-109 | exactly the user, assistant and system roles have a wire role; it is "model" exactly for assistant and "user" otherwise |
| Wire.ConvertToGeminiMessages | bot/gemini/google_gemini_bot.py:99-114 | the appending loop computes exactly `Converted` |
| Wire.ConvertedIsMapOfKnown | bot/gemini/google_gemini_bot.py:99-114 | conversion drops exactly the messages with an unknown role and keeps the order of the rest; each kept message becomes one turn with one text part holding its content, with role "model" for assistant and "user" otherwise |
| Wire.KnownOfKnown | bot/gemini/google_gemini_bot.py:108-109 | a history without unknown roles loses nothing to the converter's filter |
| Wire.ConvertFiltered | bot/gemini/google_gemini_bot.py:50 | after normalisation the converter drops nothing; every turn's role is "user" or "model"; the newest turn is a "user" turn |
| Wire.QueryIsLastTurn | bot/gemini/google_gemini_bot.py:49-50 | once the query is appended to the session, the newest turn sent is that query as a one-part "user" turn |
| Wire.ConvertExample | bot/gemini/google_gemini_bot.py:99-135 | user/assistant/user "hi"/"hello"/"bye" is sent as user/model/user with those texts |
| Wire.ConvertDropsOther | bot/gemini/google_gemini_bot.py:108-109 | a message with an unknown role, at any position of the history, never reaches the wire: converting with it equals converting without it |
| Wire.ConvertedNeighbours | bot/gemini/google_gemini_bot.py:106-107 | in the turns sent after normalisation, two neighbouring turns share a role only where one of them comes from a system message |
| PyStr.StripStartShape | bot/gemini/google_gemini_bot.py:65 | `lstrip` leaves a suffix of the input that does not start with whitespace, and every character it removed is whitespace |
| PyStr.StripEndShape | bot/gemini/google_gemini_bot.py:65 | `rstrip` leaves a prefix of the input that does not end with whitespace, and every character it removed is whitespace |
| PyStr.StripShape | bot/gemini/google_gemini_bot.py:65 | `strip` leaves the contiguous slice after the leading whitespace; only whitespace is removed on either side, and the result neither starts nor ends with whitespace |
| PyStr.StripSkipsSpace | bot/gemini/google_gemini_bot.py:65 | a leading whitespace character does not change the stripped form |
| PyStr.StripFixed | bot/gemini/google_gemini_bot.py:65 | a string that neither starts nor ends with whitespace is its own stripped form |
| PyStr.StripDecompose | bot/gemini/google_gemini_bot.py:65 | every string is whitespace, then its stripped form, then whitespace |
| PyStr.StripIdempotent | bot/gemini/google_gemini_bot.py:65 | stripping twice equals stripping once |
| PyStr.FindFrom | bot/gemini/google_gemini_bot.py:65 | the position found is an occurrence of the pattern with none before it from the start point; none found means no occurrence |
| PyStr.Find | bot/gemini/google_gemini_bot.py:65 | `find` returns the first occurrence of the pattern, or none when it does not occur |
| PyStr.ReplacePrefix | bot/gemini/google_gemini_bot.py:64-65 | when the text starts with the prefix, `replace(prefix, "", 1)` drops exactly the first characters, as many as the prefix has |
| PyStr.StripAfterPrefix | bot/gemini/google_gemini_bot.py:64-65 | a text made of the prefix, one whitespace character and an unpadded rest starts with the prefix, and both slicing and `replace(prefix, "", 1)` followed by `strip` leave exactly that rest |
| PyStr.StripPrefixExample | bot/gemini/google_gemini_bot.py:64-65 | "!search weather today" starts with "!search" and becomes "weather today", which does not start with "!search" |
| Grounding.ApplyGrounding | bot/gemini/google_gemini_bot.py:63-67 | the block as written (with `replace`, `strip` and the in-place overwrite) computes exactly `Ground` |
| Grounding.GroundingDecision | bot/gemini/google_gemini_bot.py:63-66 | the check fails (IndexError) exactly when a prefix is set and there is no newest text; grounding is on exactly when a prefix is set and the newest text starts with it; otherwise the turns are unchanged |
| Grounding.GroundingKeepsTheRest | bot/gemini/google_gemini_bot.py:65 | the check changes nothing but the newest turn's first text: the turn count, the older turns, the newest role and the other parts all stay the same |
| Grounding.GroundedText | bot/gemini/google_gemini_bot.py:64-65 | with grounding on, the old text starts with the prefix; what follows the prefix is whitespace, then the new text, then whitespace; the new text is stripped |
| Grounding.GroundUserTextPlain | bot/gemini/google_gemini_bot.py:63-64 | with no prefix, or a newest user text that does not start with it, the turns are sent unchanged with grounding off |
| Grounding.GroundUserTextStripped | bot/gemini/google_gemini_bot.py:63-66 | when the newest user text starts with the prefix, only that turn changes: it becomes a "user" turn with the stripped rest of the text, and grounding is on |
| Grounding.GroundUserText | bot/gemini/google_gemini_bot.py:63-66 | when the newest turn is a user text, the check never fails; grounding is on exactly when a prefix is set and the text starts with it; the newest turn then carries the stripped rest, and otherwise the text itself |
| Grounding.GroundQuery | bot/gemini/google_gemini_bot.py:49-50 | on `reply`'s path the check never fails; grounding is on exactly when a prefix is set and the query starts with it, and the newest turn then carries the stripped rest of the query |
| Grounding.GroundSpacedQuery | bot/gemini/google_gemini_bot.py:63-66 | a newest user text made of the prefix, one whitespace character and an unpadded rest is sent as that rest, with grounding on |
| Grounding.GroundingExample | bot/gemini/google_gemini_bot.py:63-67 | with prefix "!search", the turn "!search weather today" is sent as "weather today" with grounding on |
| Grounding.NotGroundedExample | bot/gemini/google_gemini_bot.py:63-64 | with prefix "!search", the turn "weather today" is sent unchanged with grounding off |
| GeminiBot.ModelName | bot/gemini/google_gemini_bot.py:32-34 | a configured name other than "" or "gemini" is used as is; a missing or empty name, or the alias "gemini", gives "gemini-pro" |
| GeminiBot.GroundingPrefix | bot/gemini/google_gemini_bot.py:37-39 | grounding uses the configured prefix when it is non-empty, and none otherwise |
| GeminiBot.Classify | bot/gemini/google_gemini_bot.py:75-97 | the answer is the first part of the first candidate's content; no candidate, or a first candidate without content, means withheld; an exception, or content without parts, means failure |
| GeminiBot.ReplyFor | bot/gemini/google_gemini_bot.py:75-97 | every reply after the session query has content; it is a TEXT reply exactly when the API answered, and then carries the answer; a withheld answer gives the safety notice and a failure the failure notice, both as ERROR replies |
| GeminiBot.NoCandidateReply | bot/gemini/google_gemini_bot.py:75-88 | on `reply`'s path, an API that answers with no candidate gives the safety notice as an ERROR reply |
| GeminiBot.RaisedReply | bot/gemini/google_gemini_bot.py:70-97 | on `reply`'s path, an API call that raises gives the failure notice as an ERROR reply |
| GeminiBot.AttemptCallsApi | bot/gemini/google_gemini_bot.py:49-76 | once the query is appended, the API is always called, with the grounded turns and grounding on exactly when a prefix is set and the query starts with it |
| GeminiBot.GoogleGeminiBot.constructor | bot/gemini/google_gemini_bot.py:27-39 | the model is `ModelName` of the configured one; rate limiting follows the configuration; the grounding prefix is `GroundingPrefix` of the configured one; no session exists yet |
| GeminiBot.GoogleGeminiBot.SessionQuery | bot/gemini/google_gemini_bot.py:49 | the query is appended to its session as a user message, and the session's messages are returned |
| GeminiBot.GoogleGeminiBot.SessionReply | bot/gemini/google_gemini_bot.py:78 | the text is appended to its session as an assistant message |
| GeminiBot.GoogleGeminiBot.Ask | bot/gemini/google_gemini_bot.py:50-76 | normalising, converting, grounding and calling the API compute exactly `Attempt` on the session's messages: a failed check gives a failure without a call, and otherwise the response is classified |
| GeminiBot.GoogleGeminiBot.RecordOutcome | bot/gemini/google_gemini_bot.py:75-97 | the reply is `ReplyFor` of the outcome, and exactly one assistant message holding the reply's content is appended to the session |
| GeminiBot.GoogleGeminiBot.Reply | bot/gemini/google_gemini_bot.py:40-97 | a non-TEXT context gives `Reply(TEXT, None)` and a refused token gives the rate-limit notice, both with the sessions untouched; otherwise exactly the query and one assistant record equal to the reply's content are appended, and the reply is `ReplyFor` of the attempt on the extended history |

## Left out

- The calls `genai.configure`, `GenerativeModel` and `generate_content` (lines 52-53, 70-74) go to a network client. They are represented by the `api` function parameter, which receives the model name, the turns and the grounding flag.
- The `safety_settings` dictionary (lines 56-61) is a constant handed to that client. The model has no logic to verify for it.
- `TokenBucket` (lines 36, 45) is an external rate limiter. The model uses its verdict, the `tokenGranted` parameter, and the rate it is configured with is not modelled.
- `SessionManager` and `ChatGPTSession` (lines 31, 49, 78, 87, 96) are not part of this model. The store is a map of append-only message sequences. A new session starts empty: the system prompt a real session starts with, and the token-budget eviction, are left out.
- `conf()` lookups are constructor parameters. Changes to the configuration after construction are not modelled.
- Logging, including the safety-ratings loop (lines 83-85), is left out. The model does not capture that this loop could itself raise.
- A `content` that is missing or not a string in a stored message is not modelled. Contents are strings. A role tag other than user, assistant or system (or none) is the single role `Other`.
- The truthiness of a response candidate's content object is reduced to present (`Some`) or absent (`None`). Present content without parts is a failure, because indexing `parts[0]` raises.
- GeminiBot.GoogleGeminiBot.Reply: the model assumes `session_id` is bound whenever the generic error path runs. A `context` of `None`, or one without `session_id`, is not modelled. In Python that path would itself fail on the unbound variable.
- `ContextType` is reduced to text versus non-text. Only that distinction affects `reply`.
