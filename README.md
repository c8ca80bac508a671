# Paimon, a Discord bot backed by Gemini: the conversation context and the message handler

The bot answers Discord messages through a Gemini chat and keeps one
conversation history per user and channel. Every turn of a session goes into
one process-wide JavaScript `Map`. The map's key is `authorId + "_" + channelId`.
Each value is an array of turns `{ role, parts: [{ text }] }`. The map is
written to a JSON file after `!clearhistory` and after each recorded answer,
and read back at start-up. Not every change is saved: loading saves nothing,
and neither does the push of the user's turn into a stored array when the chat
call fails or its answer is blank.

This project models that map and the `messageCreate` handler that uses it,
and proves what they do.

- `wrappers.dfy` (`Wrappers`) holds `Option`.
- `text.dfy` (`Text`) models JavaScript's `trim` with ECMAScript's exact
  white-space set, and `includes` as a substring test. It proves that a string
  with no white space at either end is found in the raw text exactly when it is
  found in the trimmed text.
- `conversation.dfy` (`Conversation`) holds turns, the persona preamble with
  its "prepend unless already first" step, and the session key.
- `session_map.dfy` (`SessionMap`) holds the map as a value. A JavaScript `Map`
  iterates in insertion order, so the value keeps its key order beside its
  contents. The module also holds `get`/`set`/`delete` and the conversion
  between the map and the list of `[key, turns]` pairs written by
  `saveConversationHistory` and read by `loadConversationHistory`. The payload
  read from the file is an input: it may be unreadable, not an array, or an
  array whose elements may fail to unpack.
- `context_store.dfy` (`ContextStore`) is the map on the heap. A `History`
  object is one JavaScript array, held by reference. A `Store` holds the key
  order and a `map<string, History>`. `Store.Model()` is the map's value.
  `Set`, `Delete`, `Save` and `Load` are proved against the matching
  `SessionMap` function. `Get` is stated on the objects themselves: it returns
  the array stored under the key, or null.
- `message_handler.dfy` (`MessageHandler`) gives the handler twice:
  - `Handle` and `Converse` say what one event does to the map's value. The
    outcome is the new map, the replies sent, the history handed to the chat,
    and the pairs saved.
  - `HandleMessage` does the same step by step on a `Store`, pushing to the
    arrays as the code does. It is proved to produce `Handle`'s outcome.
  - `ConverseOnStore` also states which array is extended. If the stored
    history already starts with the persona, the stored array itself receives
    the user's turn before the chat is called, and keeps it whatever happens
    next. Otherwise a fresh copy is extended. The stored array is then left
    alone, and only a commit puts the copy under the key.
- `handler_properties.dfy` (`HandlerProperties`) proves the handler's
  properties about `Handle` and `Converse`: filters, `status?`,
  `!clearhistory`, the history sent, when the answer is recorded, and which
  reply goes out.

The chat's result is an input, `Generation`. Either the call failed (it threw),
or it gave a text and a block reason, where `""` stands for an absent or empty
`promptFeedback.blockReason`. Whether `sendTyping` succeeded is also an input.
The bot's Thai replies are the constructors of `Reply`.

Some behaviours of the code worth noting:

- The model's answer is pushed, set and saved before the safety and length
  checks (index.js:188-191 come before index.js:195-216). A withheld answer and
  an answer over 2000 characters are therefore recorded in the history; only
  the reply differs.
- When the persona is already first, a failed or blank answer leaves the
  user's turn in the stored history, because it was pushed into the stored
  array at index.js:163. When the persona had to be added, that turn is lost.
- `status?` reports the channel's name, not its id (index.js:107).
- The persona test looks only at the text of the first turn (index.js:150-153).
  It checks neither the role nor the later turns.
- A message whose text is the persona instruction is pushed (index.js:163) as a
  user turn equal to the persona turn. The first such message of a session
  therefore records the persona turn twice at the head of the history.
- The comment at index.js:154 says the map is not affected. That holds only when
  the persona had to be added; otherwise `history` is the stored array itself.

## Model

| member | source | states |
|---|---|---|
| `Conversation.SessionKey` | index.js:114 | the session key: the author id, an underscore, the channel id (the same at line 135) |
| `Conversation.HasPersona` | index.js:150-153 | the history is non-empty and its first turn's text is the persona text |
| `Conversation.EnsurePersona` | index.js:150-160 | a copy with the persona turn in front when the persona test fails, the history itself otherwise |
| `Conversation.SessionKeyInjective` | index.js:135 | two sessions whose author ids contain no underscore get the same key only when they have the same author and channel |
| `Conversation.SessionKeyCollides` | index.js:114 | without that premise different author and channel ids can share a key |
| `Conversation.EnsurePersonaShape` | index.js:150-160 | after the persona step the history starts with the persona; the old turns follow in order; the persona turn is added exactly when it was not first (length +1), otherwise nothing changes |
| `Conversation.EnsurePersonaIdempotent` | index.js:150-160 | a second persona step changes nothing |
| `Text.Trim` | index.js:178 | `trim`: the string with its leading and trailing ECMAScript white space removed; the result neither starts nor ends with white space |
| `Text.IsBlank` | index.js:126 | `!s.trim()`: the trimmed string is empty |
| `Text.Contains` | index.js:196 | `includes`: the needle occurs at some position of the text |
| `Text.BlankIffAllWhitespace` | index.js:126 | a text trims to nothing exactly when every character is ECMAScript white space |
| `Text.TrimIdempotent` | index.js:178 | trimming the generated text again changes nothing |
| `Text.ContainsIffInTrimmed` | index.js:196 | a string with no white space at either end occurs in a text exactly when it occurs in the trimmed text |
| `SessionMap.Lookup` | index.js:139 | `get(key)`, falling back to `[]`: the key's turns, or no turns for an absent key |
| `SessionMap.Put` | index.js:190 | `set`: the key gets the turns; a new key goes last in the order, an existing one keeps its place |
| `SessionMap.Remove` | index.js:115 | `delete`: the key leaves the contents and the order |
| `SessionMap.Pairs` | index.js:74 | `Array.from(map.entries())`: one pair per key in insertion order |
| `SessionMap.LoadPairs` | index.js:50-52 | the `forEach` of `set`: the pairs set one after the other, in list order |
| `SessionMap.LoadPayload` | index.js:43-67 | `loadConversationHistory`: an unreadable file or a non-array leaves the map alone; an array loads the pairs before its first element that cannot be unpacked |
| `SessionMap.PutLookup` | index.js:190 | `set` gives the key the new turns and changes no other key; a new key goes last in the order, an existing key keeps its place |
| `SessionMap.PutPut` | index.js:163-190 | setting a key twice is setting it to the second value (the in-place push followed by the `set` of the same array) |
| `SessionMap.RemoveLookup` | index.js:115 | `delete` removes the key and changes no other key; the key is cut out of its place in the order, the rest keeping their relative order, and an absent key leaves the order as it was |
| `SessionMap.WithoutSplit` | index.js:115 | taking out a key listed once leaves the keys before it followed by the keys after it |
| `SessionMap.PairsListsEntries` | index.js:74 | the saved list has one pair per key, in insertion order, each with that key's turns |
| `SessionMap.LoadPairsLookup` | index.js:49-52 | after loading, a key is present exactly when it was present before or some pair names it; the last pair for a key wins; keys no pair names keep their turns |
| `SessionMap.Unpacked` | index.js:50-52 | the loop gets through the elements before the first one that cannot be unpacked, and no further |
| `SessionMap.SaveLoadRoundTrip` | index.js:50-74 | loading the saved pairs into an empty map gives back the same keys, in the same order, with the same turns |
| `SessionMap.NonArrayPayloadIgnored` | index.js:54-58 | a file that is not an array leaves the map unchanged |
| `SessionMap.SavedFileRoundTrip` | index.js:43-79 | the saved file, read at start-up into the empty map, reproduces the map |
| `ContextStore.Store.constructor` | index.js:40 | the new map is empty |
| `ContextStore.Store.Get` | index.js:139 | `get` returns the stored array itself, or null for an absent key |
| `ContextStore.Store.Set` | index.js:190 | `set` stores the array under the key, and the map's value becomes `Put` of the old value |
| `ContextStore.Store.Delete` | index.js:115 | `delete`, and the map's value becomes `Remove` of the old value |
| `ContextStore.Store.Save` | index.js:74 | the pairs written are `Pairs` of the map's value (loop invariant over the key order) |
| `ContextStore.Store.Load` | index.js:43-67 | the map's value becomes `LoadPayload` of the old value: pairs set one at a time, each as a new array |
| `ContextStore.History.Push` | index.js:163 | `push` appends one turn in place |
| `ContextStore.History.Unshift` | index.js:157 | `unshift` puts one turn in front in place |
| `MessageHandler.IsBlocked` | index.js:195-197 | the untrimmed answer contains the safety marker, or a block reason is set |
| `MessageHandler.ReplyFor` | index.js:181-216 | the reply for an answer: nothing-to-say when it trims to nothing, then the refusal when blocked, then the too-long notice over 2000 characters, else the trimmed text |
| `MessageHandler.Converse` | index.js:135-216 | one conversation step on the map's value: the history sent, the user's turn left in the stored array when the persona was first, the commit and save of a non-blank answer, and the reply |
| `MessageHandler.Handle` | index.js:96-223 | one event on the map's value: the bot filter, `status?`, `!clearhistory`, the channel and blank filters, the typing failure, then `Converse` |
| `MessageHandler.SafetyMarkerUnpadded` | index.js:196 | the safety marker has no white space at either end |
| `MessageHandler.CopyWithPersona` | index.js:150-163 | a fresh array holding the persona, the stored turns and then the user's turn |
| `MessageHandler.PushToStored` | index.js:163 | when the persona is already first, the user's turn is pushed into the stored array, so the map's value already holds it |
| `MessageHandler.AssembleHistory` | index.js:139-163 | the working history is the persona-ensured stored history plus the user's turn; it is the stored array when the persona was first, otherwise a fresh copy, with the map unchanged |
| `MessageHandler.CommitModelTurn` | index.js:188-190 | the model's turn is pushed and that array is set under the key; the map's value becomes `Put` of the old value |
| `MessageHandler.RecordAnswer` | index.js:188-216 | a non-blank answer is committed and saved before the reply is chosen; the saved pairs are those of the committed map |
| `MessageHandler.Respond` | index.js:174-216 | a failed call gives the apology and a blank answer the nothing-to-say reply, both without touching the store; any other answer is recorded |
| `MessageHandler.ConverseOnStore` | index.js:135-216 | the step-by-step conversation has `Converse`'s outcome; the array under the key stays the same object when the persona was first, and is a fresh one after a commit otherwise, with the old array untouched |
| `MessageHandler.HandleMessage` | index.js:96-223 | the step-by-step handler has `Handle`'s outcome: the same new map, replies, history sent and pairs saved |
| `HandlerProperties.SilentIffIgnored` | index.js:99-128 | the bot sends nothing exactly for bot authors, and for other messages outside the channel or blank; such messages change nothing, reach no chat and save nothing |
| `HandlerProperties.StatusAnsweredAnywhere` | index.js:102-110 | `status?` gets the greeting and the channel report in any channel and changes nothing |
| `HandlerProperties.ClearRemovesOnlyCallersKey` | index.js:113-119 | `!clearhistory` removes the caller's own key only, keeps every other key and its turns in their order, saves and confirms |
| `HandlerProperties.ClearIgnoresChannel` | index.js:113-123 | `!clearhistory` has the same outcome whatever the configured channel, typing result and chat |
| `HandlerProperties.TypingFailureApologizes` | index.js:131 | when `sendTyping` fails the apology is sent and nothing changes |
| `HandlerProperties.ReachesConverse` | index.js:121-135 | a message that passes the filters is handled by the conversation step under its own key |
| `HandlerProperties.SentHistory` | index.js:163-171 | the chat is given the persona-ensured stored history followed by exactly one user turn with the message |
| `HandlerProperties.UnansweredNotCommitted` | index.js:178-184 | a failed call or blank answer commits and saves nothing; the user's turn remains under the key only when the persona was already first |
| `HandlerProperties.AnswerCommitted` | index.js:186-191 | a non-blank answer records the persona-ensured history, the user's turn and the trimmed answer under the key, changes no other key, saves, and the reply is chosen from the answer alone |
| `HandlerProperties.BlockedAnswerStillRecorded` | index.js:188-203 | a withheld answer is recorded and saved, and only the refusal is sent |
| `HandlerProperties.OverlongAnswerStillRecorded` | index.js:188-210 | an answer over 2000 characters is recorded and saved, and only the too-long notice is sent |
| `HandlerProperties.BlockedOnTrimmedText` | index.js:195-197 | the safety test on the raw text agrees with the same test on the trimmed text |
| `HandlerProperties.ReplyForCases` | index.js:181-216 | blank gives nothing-to-say; otherwise withheld gives the refusal; otherwise over 2000 gives the too-long notice; otherwise the trimmed text is sent, each exactly under its condition |
| `HandlerProperties.ContentReplyIsSendable` | index.js:205-216 | text sent as is is the trimmed answer: non-blank, already trimmed, at most 2000 characters, free of the safety marker, with no block reason |
| `HandlerProperties.AtLimitSent` | index.js:206-216 | an answer of exactly 2000 characters is sent as is |
| `HandlerProperties.OverLimitNotSent` | index.js:206-210 | an answer of 2001 characters gets the too-long notice |
| `HandlerProperties.FirstMessageIntoEmptyMap` | index.js:139-191 | the first message into a map with no sessions sends the chat the persona and the message; the answer is recorded after them under the key, which is then the only key |
| `HandlerProperties.PersonaMessageRepeatsPersona` | index.js:150-163 | a first message (into a map with no sessions) whose text is the persona instruction records a history of three turns that starts with the persona turn twice |

## Left out

- The Discord client (intents, login, the `ready` event) and the sending of
  replies. Replies are values, in the order the handler sends them; each
  `message.reply` promise is not awaited, and its rejection is not modelled.
- `sendTyping` is only its success or failure, the `typingOk` input.
- Gemini's `startChat`, `sendMessage` and `response.text()` are one input,
  `Generation`.
- The history array handed to `startChat` may be extended by the Gemini
  library itself. That library is not part of this model, so the array is
  taken to be left alone. `maxOutputTokens` only limits the chat and is left
  out.
- The file system and JSON. A missing file, an unreadable one and one that is
  not JSON are all `Unreadable`, and each leaves the map alone. Write failures
  are logged and change nothing, so the saved pairs are what a successful write
  holds.
- JSON elements that unpack to a key or value of the wrong type are not
  modelled, since a `Pair` always holds a string key and a list of turns. For
  example, `[k, null]` is stored by `set` and read back as `[]` through `|| []`
  at index.js:139. A stored entry whose first element has no `parts` would make
  the persona test throw; such files are not modelled either.
- Environment variables, `process.exit` and console logging.
- Concurrent handler runs that interleave at `await` points: the model handles
  one event at a time.
- Lengths count Unicode characters here. JavaScript's `length` counts UTF-16
  code units, so an answer outside the Basic Multilingual Plane can be over
  2000 in JavaScript and within 2000 here.
- The Thai reply texts and the persona's wording. `PersonaText` is a stand-in,
  since only its equality with the first turn's text matters.
- `MessageHandler.HandleMessage`: states the handler's outcome on the map's
  value. It does not state which arrays are the same objects;
  `MessageHandler.ConverseOnStore` states that.
