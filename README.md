# monolingo client state, in Dafny

This project models the four client-side state containers of the monolingo language
assistant and proves properties about them. Network calls, browser callbacks and
timestamps are inputs to the model.

- **Conversation history index** (`useConversationHistory`, module `ConversationHistory`).
  It holds the prompts the user submitted, newest first. It keeps at most
  `MAX_HISTORY_LENGTH` = 10 of them and ignores blank prompts. It also holds the active
  entry and a single-slot scroll target (`messageIndexRef`).
- **Voice agent** (`useVoice`, module `Voice`). A FIFO of speech clips is played one at a
  time, guarded by an `isPlaying` flag. A five-valued status
  (`idle | listening | thinking | speaking | error`) is driven by speech recognition,
  speech synthesis and the image endpoint.
  - Each browser callback is a method the environment calls: the recognizer's result, an
    audio element's `ended` event, a rejected `play()`, a backend call settling.
  - Ghost logs of every clip enqueued and every clip that left the player make FIFO
    order and "every clip is dequeued exactly once" a class invariant.
- **Chat message store** (`useChat`, module `MessageStore`). This is an append-only
  transcript of user and assistant turns, with a loading flag and the last error text.
  - `addMessage` awaits the backend, so it is split at the `await` into `Submit` and
    `Settle`.
  - A trace of such steps (`Event`, `Run`) lets any interleaving of outstanding calls be
    reasoned about sequentially.
  - The class `ChatStore` is proved against the pure step functions.
- **Local chat list** (`handleSend` in the `Chat` component, module `LocalChat`). This
  second bounded list appends at the end and keeps the last 10 entries. It also ignores
  blank input and clears the text field after a send.
- **Shared helpers.**
  - The blank test `!s.trim()` is in module `Text`. `IsBlank` holds exactly when every
    character is an ECMAScript WhiteSpace or LineTerminator code point, which is exactly
    when `trim` returns the empty string.
  - The `slice(0, n)` and `slice(-n)` bounds are in module `Seqs`.

## Model

| member | source | states |
|---|---|---|
| Text.Trim | src/hooks/useChat.tsx:11 | `trim` gives a string no longer than its input whose ends are not whitespace. The result is empty if and only if every character of the input is whitespace. |
| Text.TrimStart | src/hooks/chat.tsx:27 | The leading whitespace is removed: the result is a suffix of the input, everything dropped is whitespace, and the result does not start with whitespace. |
| Text.TrimEnd | src/S/chat.tsx:27 | The trailing whitespace is removed: the result is a prefix of the input, everything dropped is whitespace, and the result does not end with whitespace. |
| Text.TrimEmptyIffBlank | src/hooks/chat.tsx:27 | `!s.trim()` holds exactly for the blank strings that the model's `IsBlank` test names. |
| ConversationHistory.Prepended | src/hooks/chat.tsx:29-35 | After a non-blank add, the new item is at index 0, verbatim. The previous items follow in their order, shifted by one. The length is `min(10, old + 1)`, so only the oldest entry is evicted. |
| ConversationHistory.AfterAddsKeepsMostRecent | src/hooks/chat.tsx:25-39 | For any sequence of adds, the list is the first 10 of: the non-blank prompts, newest first, followed by the starting list. It never exceeds 10 entries. |
| ConversationHistory.DuplicatesKept | src/hooks/chat.tsx:31 | Adding a prompt already listed at position `j` keeps both copies, at 0 and at `j + 1`, unless the old copy is the one evicted: there is no de-duplication. |
| ConversationHistory.History.constructor | src/hooks/chat.tsx:13-17 | The history starts empty, with no active entry and no scroll target. |
| ConversationHistory.History.AddConversationItem | src/hooks/chat.tsx:25-39 | A blank prompt leaves the items and the active index unchanged. Any other prompt gives `Prepended(old, item)` with active index 0. The scroll target is never touched, and the 10-entry bound is kept. |
| ConversationHistory.History.SelectConversation | src/hooks/chat.tsx:45-50 | The index becomes active. The scroll target is overwritten only when one is given, otherwise the previous one is kept. The items are unchanged. |
| ConversationHistory.History.GetSelectedMessageIndex | src/hooks/chat.tsx:51 | Returns the last recorded scroll target, or `None` when none was ever given. |
| LocalChat.Sent | src/S/chat.tsx:28 | The sent text is the last element, verbatim. It is preceded by the newest earlier messages in their order, and the oldest are dropped first. The length is `min(10, old + 1)`. |
| LocalChat.BlankSendsKeepList | src/S/chat.tsx:27 | Any number of blank sends leave the list exactly as it was. |
| LocalChat.AfterSendsKeepsMostRecent | src/S/chat.tsx:26-31 | Once anything non-blank was sent, the list is the last 10 of the starting list followed by the non-blank texts in sending order. It never exceeds 10 entries. |
| LocalChat.MirrorsHistory | src/S/chat.tsx:28 | The two bounded lists mirror each other: the history's prepend-and-keep-first-10, read backwards, is the panel's append-and-keep-last-10 of the reversed list. |
| LocalChat.ChatPanel.constructor | src/S/chat.tsx:13-18 | The list starts as the saved list, or empty when nothing was saved. The text field starts empty. |
| LocalChat.ChatPanel.SetInput | src/S/chat.tsx:58 | Typing replaces the text field and leaves the list unchanged. |
| LocalChat.ChatPanel.HandleSend | src/S/chat.tsx:26-31 | Blank input changes nothing. Otherwise the list becomes `Sent(old, input)` and the field becomes `""`. A list within the bound stays within it. |
| MessageStore.ReplyTurn | src/hooks/useChat.tsx:30-47 | The turn a settled call appends is an assistant turn. On success its content is the reply itself. On failure its content is `"Sorry, there was an error: "` followed by the `Error`'s message, or by `"An error occurred"` for any other thrown value. |
| MessageStore.ErrorDetailRoundTrip | src/hooks/useChat.tsx:45 | The failure detail can be read back exactly from the apology turn. |
| MessageStore.Submit | src/hooks/useChat.tsx:10-23 | Blank text changes nothing. Otherwise one user turn holding the text verbatim is appended after the unchanged transcript, the error is cleared, loading is set, and one more call is outstanding. |
| MessageStore.Settle | src/hooks/useChat.tsx:25-51 | Exactly one turn is appended after the unchanged transcript, and it is the assistant turn `ReplyTurn` builds from the outcome. A failure sets the error to its text, while a success keeps the error. Loading is false afterwards and one call fewer is outstanding. |
| MessageStore.AddRaw | src/hooks/useChat.tsx:54-56 | Exactly the given message is appended; nothing else changes. |
| MessageStore.Clear | src/hooks/useChat.tsx:58-61 | The transcript is empty and the error is cleared. Loading and the outstanding calls are unchanged. |
| MessageStore.AppendOnly | src/hooks/useChat.tsx:23-56 | Without a clear, any feasible sequence of calls keeps every earlier turn unchanged and in place. |
| MessageStore.CallsDeliverEveryTurn | src/hooks/useChat.tsx:10-52 | For any interleaving of `addMessage` calls, the transcript grows by one turn per non-blank submission plus one per settled call. The earlier turns are unchanged. The new user turns are the submitted texts in issue order, and the new assistant turns are the replies or apologies in settling order. No turn is lost. |
| MessageStore.InterleavedCallsAddTwoTurnsEach | src/hooks/useChat.tsx:10-52 | N non-blank submissions and N settlements, interleaved in any way, add exactly 2N turns. |
| MessageStore.ChatStore.constructor | src/hooks/useChat.tsx:6-8 | The store starts with no turns, not loading, and no error. |
| MessageStore.ChatStore.AddMessage | src/hooks/useChat.tsx:10-23 | The new state is `Submit` of the old one. The backend is called exactly when the text is not blank. |
| MessageStore.ChatStore.FinishAddMessage | src/hooks/useChat.tsx:25-51 | The new state is `Settle` of the old one. |
| MessageStore.ChatStore.AddRawMessage | src/hooks/useChat.tsx:54-56 | The new state is `AddRaw` of the old one. |
| MessageStore.ChatStore.ClearChat | src/hooks/useChat.tsx:58-61 | The new state is `Clear` of the old one. |
| Voice.EveryClipAccountedFor | src/hooks/useVoice.tsx:60-84 | For every voice agent in a valid state, each clip ever enqueued is counted exactly once: ended + failed + playing + still queued = enqueued. |
| Voice.Transcript | src/hooks/useVoice.tsx:23-25 | The utterance starts with the first result's first alternative, and is empty when there are no results. |
| Voice.TranscriptConcat | src/hooks/useVoice.tsx:23-25 | Joining the results is concatenation: results split into two batches give the same utterance. |
| Voice.ReplyClip | src/hooks/useVoice.tsx:94-100 | An image reply yields a clip exactly when `audio_b64` is present and non-empty, and the clip carries that payload. |
| Voice.VoiceAgent.constructor | src/hooks/useVoice.tsx:5-10 | The agent starts idle, with an empty queue, nothing playing and empty logs. |
| Voice.VoiceAgent.StartListening | src/hooks/useVoice.tsx:42-49 | The status becomes `listening` only when recognition is available and `start()` does not throw; otherwise it is unchanged. |
| Voice.VoiceAgent.StopListening | src/hooks/useVoice.tsx:51-58 | The status becomes `idle` only when recognition is available and `stop()` does not throw; otherwise it is unchanged. |
| Voice.VoiceAgent.EnqueueAudio | src/hooks/useVoice.tsx:60-63 | The clip joins the tail. While a clip plays, that clip, the flag and the status are untouched. When nothing plays, the head of the queue starts at once with status `speaking`. The FIFO invariant is kept. |
| Voice.VoiceAgent.PlayNext | src/hooks/useVoice.tsx:65-75 | On an empty queue the player stops and the status is `idle`. Otherwise the head is dequeued and playing, and the status is `speaking`. The dequeued clip plus the queue equal the old queue. |
| Voice.VoiceAgent.OnEnded | src/hooks/useVoice.tsx:76-80 | The playing clip is logged as ended, then the next queued clip starts, or the player goes idle when none remain. |
| Voice.VoiceAgent.OnPlayFailed | src/hooks/useVoice.tsx:81-84 | As written: the failed clip is dropped and logged as failed, the status is `error` and nothing plays. The queue stays exactly as it was. |
| Voice.VoiceAgent.OnPlayFailedAndAdvance | src/hooks/useVoice.tsx:81-84 | Corrected: the failed clip is dropped and the next clip starts as after an `ended` event, or the player idles. |
| Voice.VoiceAgent.PlayQueueToEnd | src/hooks/useVoice.tsx:76-80 | When every clip plays to its end, the `ended` chain plays the current clip and every queued clip in enqueue order, and ends idle with an empty queue. With nothing playing, queued clips are not started. |
| Voice.VoiceAgent.EndEveryClip | src/hooks/useVoice.tsx:76-80 | From a playing clip, the chain of `ended` events ends the playing clip and then every queued clip, in enqueue order. It leaves the player idle with an empty queue, and the FIFO invariant holds throughout. |
| Voice.VoiceAgent.OnRecognized | src/hooks/useVoice.tsx:17-27 | Recognition results arrive only where the browser offers recognition. A recognition result sets the status to `thinking` and yields the joined transcript for synthesis. |
| Voice.VoiceAgent.OnSpeechSynthesized | src/hooks/useVoice.tsx:28-33 | This step follows a recognition result, so recognition is available. A synthesized clip is enqueued exactly once and something is playing. A synthesis failure sets `error` and leaves the queue alone. |
| Voice.VoiceAgent.SendImageToAgent | src/hooks/useVoice.tsx:87-91 | Sending an image sets the status to `thinking`. |
| Voice.VoiceAgent.OnAgentReply | src/hooks/useVoice.tsx:92-103 | A reply with a non-empty `audio_b64` enqueues its clip exactly once, and something is playing. If nothing was playing, the clip starts and the status is `speaking`. If a clip was playing, that clip and the status (normally `thinking`) are unchanged. A reply without a clip changes nothing. A failure sets `error` and leaves the queue alone. |
| Voice.PlaysInEnqueueOrder | src/hooks/useVoice.tsx:60-80 | Three clips enqueued in a row end in exactly that order, and the agent ends idle. |
| Voice.FailedClipStallsQueue | src/hooks/useVoice.tsx:81-84 | As written, a failure of the first of two clips leaves the second queued with nothing playing, even after the `ended` chain runs. |
| Voice.FailedClipSkipped | src/hooks/useVoice.tsx:81-84 | With the corrected handling, the second clip is playing right after the first fails. |

## Left out

- Local storage: the `Chat` panel's JSON persistence and its parse (src/S/chat.tsx:13-23) are left out. The constructor takes the restored list as an optional parameter. A restored list may be longer than 10; it is only cut at the next send.
- The JSX layout, the MUI components and `src/App.tsx` are not modelled: they are UI only.
- `src/services/api.ts` is not part of this model. Each backend call is an outcome given to the model:
  - a `ChatOutcome` for `sendMessage`;
  - a `Result<Clip, string>` for `agentTts`;
  - a `Result<AgentReply, string>` for `agentOcrTts`.
- MessageStore.ReplyTurn: a reply whose `reply` field is missing from the JSON is not modelled, because the reply is always a string here.
- The backend servers (`XD/server.js`, `app.py`, `mati/app.py`) are not part of this model: they only forward requests to external services.
- Browser objects are reduced to events or left out:
  - `Audio`, `URL.createObjectURL` and `revokeObjectURL` become the `ended` and failed-`play()` events;
  - `atob`, `Uint8Array` and `Blob` decoding: a clip carries its base64 text unchanged;
  - the `SpeechRecognition` setup (`lang`, `interimResults`, `maxAlternatives`) is reduced to an availability flag;
  - the `FormData` built by `sendImageToAgent`.
- Voice.VoiceAgent.StartListening: a recognizer whose `start()` throws is a boolean parameter, not a model of the browser's rules for when it throws.
- Voice.VoiceAgent.OnAgentReply: a malformed `audio_b64` that makes `atob` throw (and so sets `error`) is not modelled, because decoding is left out.
- Timestamps (`new Date()`) are opaque `Instant` values. Nothing is computed from them.
- React batching, effects and real asynchrony are not modelled.
  - Each `addMessage` is two explicit steps, and a completion may only settle a call that is outstanding.
  - Functional updates (`setMessages(prev => ...)`) are applied in the order their steps happen, which is what React's updater queue guarantees.
- `isLoading` is cleared by the first call that settles, even when other calls are still outstanding. This is modelled as written (`MessageStore.Settle`); no invariant ties `isLoading` to the outstanding calls, because the code does not keep one.
- The blank test is the ECMAScript `trim` whitespace set written out for `char` values. Dafny strings are sequences of Unicode scalar values, not UTF-16 code units.

## Findings

| source | as written | input that shows it | evidently intended | confidence | as-written member | corrected member |
|---|---|---|---|---|---|---|
| src/hooks/useVoice.tsx:81-84 | A rejected `play()` clears `isPlaying` and sets `error`, but does not call `playNext`. The clips behind the failed one stay queued, and nothing plays them until another clip is enqueued. | Enqueue clips `a` and `b`; `a`'s `play()` is rejected. Then `b` is still queued, nothing is playing, and no `ended` event will ever arrive. | A failed clip counts as finished and the queue advances to the next clip (status `error` for that step, then `speaking` or `idle`), so that one bad clip never stalls the clips behind it. | not executed | Voice.VoiceAgent.OnPlayFailed, Voice.FailedClipStallsQueue | Voice.VoiceAgent.OnPlayFailedAndAdvance, Voice.FailedClipSkipped |

The intended policy is that a clip whose `play()` is rejected counts as finished and the
queue advances. The code does not do this, and the model follows the code: `OnPlayFailed`
is the handler as written, and `OnPlayFailedAndAdvance` is the corrected one.

The status never leaves `error` by itself. It stays until one of these changes it:
- `startListening` or `stopListening` succeeds;
- a recognition result or `sendImageToAgent` sets `thinking`;
- an enqueue starts playback;
- playback ends.
