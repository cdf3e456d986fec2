# DebateSim core, modelled in Dafny

DebateSim is a debating-practice app. A person picks a topic and a side
(for or against) on the topic screen. The debate screen then asks a backend
for the AI's opening statement. After that the person and the AI take turns,
and each reply the person sends is answered by the AI. Ending a debate saves
a transcript, which the transcript screen shows and can share as plain text.
The backend is an Express server with two handlers that call the Anthropic
messages API. It also carries a provider gateway (Anthropic or OpenAI), but
the handlers never call it.

This project models the logic behind those steps and proves what it
promises:

| module | file | models |
|---|---|---|
| `Types` | types.dfy | the records of `src/types/index.ts`, `Option`/`Result`, the side complement |
| `Strings` | strings.dfy | JavaScript's whitespace class, `trim`, number-to-text interpolation, `parseInt` |
| `WordCounter` | word_counter.dfy | `countWords`, `isOverWordLimit`, `getWordCountStatus` |
| `Api` | api.dfy | client payloads, sender-to-role mapping, the four-way error classification |
| `Sdk` | sdk.dfy | the two provider reply shapes and the text pulled out of them |
| `DebateController` | debate_controller.dfy | the backend's validation, message lists, 200/400/500 replies |
| `AiService` | ai_service.dfy | configuration from the environment, provider dispatch, the two adapters |
| `Storage` | storage.dfy | the transcript record written and read back, the file name, the listing filter |
| `Debate` | debate_screen.dfy | the debate screen: session updaters, whole-handler transitions, the component as a class |
| `Transcript` | transcript_screen.dfy | the duration text, the share text, the message count |
| `TopicSelection` | topic_selection.dfy | form validity, the start guard, the hint, the form as a class |
| `RequestPath` | request_path.dfy | what the client posts and how the backend handlers read it |

Values and state:

- Instants are integers in epoch milliseconds.
- Ids are real strings:
  - a message or session id is the decimal text of a clock reading;
  - a placeholder id is `thinking-` followed by that text.
- Every clock reading is an explicit parameter. One reading gives a message both its id and its timestamp.
- Each outside call is an input that says how the call settled:
  - the HTTP post (`Api.Transport`);
  - the provider SDK reply (`Sdk.AnthropicReply`, `Sdk.OpenAIReply`);
  - the filesystem write, read and listing (`writeOk`, `Storage.ReadResult`, `listing`).

The two screens that keep state are classes:

- `Debate.DebateScreen` holds `session`, `currentInput` and `isLoading`.
- `TopicSelection.TopicSelectionScreen` holds `topic` and `selectedSide`.

Each handler method is proved equal to a pure transition on the old state (`Debate.Opening`, `Debate.Send`, `TopicSelection.StartParams`). The lemmas about those transitions carry the debate-level properties:

- the turns alternate;
- a debate with N answered exchanges holds 2N+1 messages;
- no "thinking" placeholder survives;
- a send is ignored before the opening.

Behaviours of the code worth noting:

- **A reply that arrives after the debate ended is not discarded.** `handleEndDebate` (src/screens/DebateScreen.tsx:282-320) does not change the component's session. A reply still in flight is therefore applied when it lands. `Debate.DebateScreen.HandleEndDebate` leaves the state as it is.
- **A count exactly at the limit is green.** The orange test `percentage >= 90 && percentage < 100` runs first, and `isOverLimit` is only `count > limit` (src/utils/wordCounter.ts:17-25).
- **Loading a transcript checks nothing.** `loadTranscript` spreads whatever the file held (src/services/storage.ts:49-56). `Storage.Decode` takes every field as stored.
- **The controller does not use the gateway.** The handlers call the Anthropic SDK directly with their own constants: model `claude-3-7-sonnet-20250219`, 300 tokens. `AiService` is modelled as written, but nothing reaches it.
- **The request duplicates the user's message.** The history the client posts already ends with the new user message (src/screens/DebateScreen.tsx:224). The backend then appends `userMessage` again (backend/src/controllers/debateController.ts:135-138). So the model receives the human's reply twice in a row (`RequestPath.UserMessageSentTwice`).

## Model

| member | source | states |
|---|---|---|
| Types.Opposite | src/screens/DebateScreen.tsx:35 | the AI's side is never the human's side |
| Types.OppositeInvolution | src/screens/DebateScreen.tsx:35 | taking the complement twice gives back the side |
| Strings.LeadingSpaces | src/utils/wordCounter.ts:2 | the length of the maximal leading whitespace run |
| Strings.TrailingSpaces | src/utils/wordCounter.ts:2 | the length of the maximal trailing whitespace run |
| Strings.Trim | src/utils/wordCounter.ts:2 | `trim` never lengthens, and its result neither starts nor ends with whitespace |
| Strings.TrimIsPadded | src/utils/wordCounter.ts:2 | a string is its trimmed text between a whitespace prefix and a whitespace suffix |
| Strings.TrimEmptyIffAllSpace | src/utils/wordCounter.ts:2 | `text.trim() === ''` exactly when every character is whitespace |
| Strings.TrimIdempotent | src/screens/TopicSelectionScreen.tsx:30-32 | trimming a trimmed string changes nothing |
| Strings.NatToString | src/services/storage.ts:18 | decimal text of a natural number: only digits, no leading zero |
| Strings.IntToString | src/screens/DebateScreen.tsx:38 | `Date.now().toString()`: an optional minus sign, then digits |
| Strings.DigitValue | backend/src/services/aiService.ts:32 | a digit's value is below 16 |
| Strings.DigitRun | backend/src/services/aiService.ts:32 | `parseInt` reads the maximal run of digits of its radix |
| Strings.ParseInt | backend/src/services/aiService.ts:32 | `parseInt` yields a number only when the text holds a digit |
| Strings.DigitsValueOfNatToString | backend/src/services/aiService.ts:32 | the positional value of a number's decimal text is that number |
| Strings.ParseIntOfDigits | backend/src/services/aiService.ts:32 | `parseInt` of a non-empty digit string is its decimal value |
| Strings.ParseIntOfNatToString | backend/src/services/aiService.ts:32 | `parseInt` reads a number's decimal text back as that number |
| Strings.NatToStringInjective | src/services/storage.ts:18 | distinct natural numbers have distinct decimal texts |
| Strings.IntToStringInjective | src/services/api.ts:75 | distinct integers have distinct decimal texts |
| WordCounter.SplitOnSpaceRuns | src/utils/wordCounter.ts:5 | `split(/\s+/)` always returns at least one piece |
| WordCounter.RunsConcat | src/utils/wordCounter.ts:5-6 | concatenation adds the word counts, less one when a word straddles the seam |
| WordCounter.RunsOfPadded | src/utils/wordCounter.ts:2-5 | whitespace around a text adds no word |
| WordCounter.SplitCountsRuns | src/utils/wordCounter.ts:5-6 | for a text that starts with a non-space, the number of pieces is the number of maximal non-space runs, plus one more after trailing whitespace |
| WordCounter.CountWordsIsRuns | src/utils/wordCounter.ts:1-7 | `countWords` equals the number of maximal non-whitespace runs |
| WordCounter.CountWordsZeroIffBlank | src/utils/wordCounter.ts:2 | the count is 0 exactly for empty or whitespace-only text |
| WordCounter.CountWordsPadInvariant | src/utils/wordCounter.ts:2-5 | added leading or trailing whitespace leaves the count unchanged |
| WordCounter.CountWordsTrimInvariant | src/utils/wordCounter.ts:2-5 | `countWords(trim(s)) == countWords(s)` |
| WordCounter.CountWordsExample | src/utils/wordCounter.ts:5-6 | `countWords("  a   b ") == 2` |
| WordCounter.IsOverWordLimit | src/utils/wordCounter.ts:9-11 | over the limit exactly when the text has more runs than the limit; the limit defaults to 200 |
| WordCounter.GetWordCountStatus | src/utils/wordCounter.ts:13-28 | over the limit iff count > limit; red iff over the limit; orange iff 90% <= count/limit < 100%; green below 90% and exactly at the limit |
| Api.RoleOf | src/services/api.ts:42 | `assistant` exactly for AI messages, `user` otherwise |
| Api.ToConversation | src/services/api.ts:41-44 | the history is mapped one for one, in order, to role and content |
| Api.ToConversationAppend | src/services/api.ts:41-44 | the mapping distributes over concatenation |
| Api.KindOf | src/services/api.ts:62-78 | `ECONNABORTED` is a timeout and `ECONNREFUSED` a refused connection; these codes beat a status; otherwise a status is a server error with that status; anything else is a network error |
| Api.MessageInjective | src/services/api.ts:64-78 | two error kinds give the same message exactly when they are the same kind |
| Api.Settle | src/services/api.ts:56-78 | a delivered reply is its text, a rejected request is its classified message |
| Api.GenerateAIResponse | src/services/api.ts:38-46 | the generate payload carries topic, side and message unchanged, and the mapped history; it settles through the classification |
| Api.GenerateOpeningStatement | src/services/api.ts:82-129 | the opening payload is exactly `{topic, aiSide}`, with the same classification |
| Sdk.FirstBlockText | backend/src/controllers/debateController.ts:68 | the first block's text if it is text, "" for another block type, a TypeError when there is no block |
| Sdk.FirstChoiceText | backend/src/services/aiService.ts:154 | the first choice's content, or "" when it is missing; never null |
| DebateController.PromptsEmbedSideAndTopic | backend/src/controllers/debateController.ts:36 | both system prompts name the AI's side, then the topic, at fixed offsets |
| DebateController.Respond | backend/src/controllers/debateController.ts:68-89 | status 200 with the extracted text, or 500 with the endpoint's fixed error when the call threw or gave no block |
| DebateController.GenerateOpeningStatement | backend/src/controllers/debateController.ts:21-90 | no call and 400 exactly when topic or aiSide is missing or falsy; otherwise one user message "Please provide your opening statement.", the fixed model and token budget, and the 200/500 outcome |
| DebateController.ConversationFor | backend/src/controllers/debateController.ts:123-138 | the history in order, then one user entry holding `userMessage`; length is history + 1 |
| DebateController.BuildConversation | backend/src/controllers/debateController.ts:123-138 | the push loop builds exactly that list; an absent or empty history gives one entry |
| DebateController.GenerateDebateResponse | backend/src/controllers/debateController.ts:92-179 | no call and 400 exactly when topic, aiSide or userMessage is missing or falsy; otherwise the rebuttal prompt, the built list, and the 200/500 outcome |
| AiService.EnvOr | backend/src/services/aiService.ts:30-32 | an unset or empty variable gives the fallback, a set one its value |
| AiService.DefaultConfig | backend/src/services/aiService.ts:29-33 | with nothing set, the configuration is anthropic, `claude-3-7-sonnet-20250219` and 1000 tokens |
| AiService.MaxTokensFromEnv | backend/src/services/aiService.ts:32 | a numeric `AI_MAX_TOKENS` is read as that number |
| AiService.ToAnthropicMessages | backend/src/services/aiService.ts:91-94 | the messages one for one, in order |
| AiService.ToOpenAIMessages | backend/src/services/aiService.ts:131-137 | the system prompt first, then every message in order with its role: n + 1 entries |
| AiService.ToOpenAIChat | backend/src/services/aiService.ts:133-136 | each message mapped one for one, in order |
| AiService.OpenAIRolesAfterFirst | backend/src/services/aiService.ts:131-137 | only the first OpenAI message has the system role |
| AiService.GenerateAnthropicResponse | backend/src/services/aiService.ts:82-120 | throws before any request exactly when `ANTHROPIC_API_KEY` is missing; otherwise sends the configured model and budget, the separate system prompt and the messages; the reply becomes the first text block with the usage, model and id; a reply with no block fails with `NoContentBlock` |
| AiService.GenerateOpenAIResponse | backend/src/services/aiService.ts:122-162 | throws before any request exactly when `OPENAI_API_KEY` is missing; otherwise sends the configured model and budget with the system prompt as the first message; the reply becomes the first choice's text with the usage, model and id |
| AiService.GenerateAIResponse | backend/src/services/aiService.ts:57-80 | `anthropic` goes to the Anthropic adapter, `openai` to the OpenAI adapter, and any other provider fails as unsupported without a request |
| AiService.SentRequestUsesConfig | backend/src/services/aiService.ts:96-101 | whatever the provider, a request that is sent carries the configured model and budget, the system prompt and every message |
| Storage.EncodeMessages | src/services/storage.ts:23-26 | every message is kept, in order, with only its timestamp turned into ISO text; fails exactly when an instant cannot be written |
| Storage.Encode | src/services/storage.ts:21-29 | every field is kept; the messages are those `EncodeMessages` writes; start and end become ISO text; an unset end stays unset |
| Storage.DecodeMessages | src/services/storage.ts:51-54 | every message is kept, in order, with its timestamp read back |
| Storage.Decode | src/services/storage.ts:49-56 | every field is taken as stored; the messages are those `DecodeMessages` reads back; an absent end decodes to unset |
| Storage.DecodeEncodeMessages | src/services/storage.ts:23-26 | the messages survive the round trip through ISO text |
| Storage.DecodeEncode | src/services/storage.ts:21-29 | `decode(encode(s)) == s`, including zero messages and an unset end |
| Storage.FileName | src/services/storage.ts:18 | the file name starts with `transcript_` and ends with `.json` |
| Storage.SaveTranscript | src/services/storage.ts:14-41 | succeeds exactly when the write succeeds and every instant can be written; the path is the directory plus the file name; the record read back is the session; every failure is "Failed to save transcript" |
| Storage.LoadTranscript | src/services/storage.ts:43-62 | the decoded record when read and parse succeed; otherwise "Failed to load transcript" |
| Storage.SaveThenLoad | src/services/storage.ts:14-62 | loading what was saved gives back the saved session |
| Storage.JsonFiles | src/services/storage.ts:68 | a name is kept exactly when it was listed and ends in `.json` |
| Storage.JsonFilesAppend | src/services/storage.ts:68 | the filter keeps directory order |
| Storage.GetAllTranscripts | src/services/storage.ts:64-73 | the `.json` names of the listing, or [] when the listing failed |
| Storage.SavedNameIsListed | src/services/storage.ts:68 | a saved transcript's name `transcript_<id>_<now>.json` is always returned by the listing |
| Debate.StampId | src/screens/DebateScreen.tsx:38 | a clock-reading id never looks like a placeholder id |
| Debate.ThinkingId | src/screens/DebateScreen.tsx:86 | a placeholder id starts with `thinking-` |
| Debate.PlaceholderIdsDiffer | src/screens/DebateScreen.tsx:86 | a real id and a placeholder id never coincide |
| Debate.FallbackNamesSideAndTopic | src/screens/DebateScreen.tsx:145 | the fallback opening names the AI's side, then the topic |
| Debate.ThinkingMessage | src/screens/DebateScreen.tsx:85-91 | the placeholder is an AI message with a `thinking-` id and word count 0 |
| Debate.UserMessage | src/screens/DebateScreen.tsx:181-187 | the human's message holds the trimmed input and its word count |
| Debate.OpeningReply | src/screens/DebateScreen.tsx:114-153 | the reply, or the fallback naming side and topic, as an AI message with its word count |
| Debate.RebuttalReply | src/screens/DebateScreen.tsx:232-265 | the reply with its word count, or the fixed apology with word count 0 |
| Debate.ReplaceById | src/screens/DebateScreen.tsx:124-126 | same length; exactly the messages with the id are replaced |
| Debate.ReplaceLast | src/screens/DebateScreen.tsx:122-128 | replacing a freshly appended placeholder with a unique id swaps exactly that last message |
| Debate.InitialSession | src/screens/DebateScreen.tsx:37-46 | a new session has the topic and side, the complement as the AI's side, no messages, the AI's turn, active, no end |
| Debate.Opening | src/screens/DebateScreen.tsx:76-176 | one message more, the last being the reply or fallback; other messages untouched; the human's turn; the opening payload posted |
| Debate.Send | src/screens/DebateScreen.tsx:178-280 | a no-op without a payload when the trimmed input is empty or it is not the human's turn; otherwise two messages more (the human's, then the reply or apology), the posted payload, and the human's turn |
| Debate.SendUnfolds | src/screens/DebateScreen.tsx:190-273 | an accepted send is its three updaters, applied in order |
| Debate.OpeningUpdatersAppend | src/screens/DebateScreen.tsx:93-128 | the two opening updaters with a fresh placeholder append just the reply |
| Debate.OpeningAppendsReply | src/screens/DebateScreen.tsx:93-161 | the opening appends exactly the reply and leaves no placeholder |
| Debate.UpdatersAppendPair | src/screens/DebateScreen.tsx:190-246 | the three send updaters with a fresh placeholder append just the human's message and the reply |
| Debate.SendAppendsPair | src/screens/DebateScreen.tsx:178-273 | an accepted send appends exactly the human's message and the reply, with no placeholder left |
| Debate.SendBeforeOpeningIsIgnored | src/screens/DebateScreen.tsx:179 | a new session starts on the AI's turn, so a send before the opening does nothing |
| Debate.OpeningSettles | src/screens/DebateScreen.tsx:37-161 | after the opening, a fresh session is settled: the human's turn, one AI message, no placeholder |
| Debate.SingleAiMessageAlternates | src/screens/DebateScreen.tsx:43 | a lone AI message starts the alternation |
| Debate.AppendPairKeepsShape | src/screens/DebateScreen.tsx:190-246 | a human/AI pair keeps an odd, alternating, placeholder-free history so |
| Debate.SendKeepsSettled | src/screens/DebateScreen.tsx:178-280 | a send keeps a settled session settled and adds two messages exactly when the input is not blank |
| Debate.PlayKeepsSettled | src/screens/DebateScreen.tsx:178-280 | any run of sends keeps a settled session settled and adds two messages per answered exchange |
| Debate.DebateShape | src/screens/DebateScreen.tsx:37-280 | after N answered exchanges: 2N+1 messages alternating AI/human starting and ending with the AI, the human's turn, no placeholder, whatever requests failed |
| Debate.EndedSession | src/screens/DebateScreen.tsx:294-298 | the ended copy has the end time set and is inactive; messages, turn and every other field are unchanged |
| Debate.DebateScreen.constructor | src/screens/DebateScreen.tsx:34-49 | the screen starts with the initial session, empty input, not loading |
| Debate.DebateScreen.SetCurrentInput | src/screens/DebateScreen.tsx:48 | only the input changes |
| Debate.DebateScreen.GenerateAIOpening | src/screens/DebateScreen.tsx:76-176 | the new session is `Opening` of the old one; the alert shows exactly when the request failed; loading ends |
| Debate.DebateScreen.HandleSendMessage | src/screens/DebateScreen.tsx:178-280 | the new session is `Send` of the old one; a rejected input changes nothing; an accepted one clears the input and alerts exactly when the request failed |
| Debate.DebateScreen.PostMessage | src/screens/DebateScreen.tsx:181-226 | the human's message and the placeholder are appended, the input is cleared, loading starts, and the history posted ends with the new message |
| Debate.DebateScreen.ReceiveReply | src/screens/DebateScreen.tsx:232-278 | the placeholder is replaced by the reply or apology, the turn returns to the human, the alert shows exactly on failure, loading ends |
| Debate.DebateScreen.HandleEndDebate | src/screens/DebateScreen.tsx:282-320 | when confirmed, hands over the ended session whether or not saving succeeded, with the success or failure alert exactly as the save went; the component state is untouched |
| Transcript.MinuteRem | src/screens/TranscriptScreen.tsx:35 | JavaScript's `%` by 60000: bounded, with the sign of the duration |
| Transcript.FormatDuration | src/screens/TranscriptScreen.tsx:30-38 | "In progress" without an end; otherwise the minutes and seconds text of end − start |
| Transcript.DurationSplits | src/screens/TranscriptScreen.tsx:33-35 | for d >= 0: 0 <= seconds <= 59 and minutes·60 + seconds = d div 1000 |
| Transcript.NegativeDurationSeconds | src/screens/TranscriptScreen.tsx:33-35 | a negative duration gives seconds between −60 and 0 |
| Transcript.NegativeDurationExample | src/screens/TranscriptScreen.tsx:33-37 | a duration of −1500 ms shows as "-1m -2s" |
| Transcript.IntToStringIsNumeral | src/screens/TranscriptScreen.tsx:37 | an interpolated integer never contains `m` |
| Transcript.IndexOf | src/screens/TranscriptScreen.tsx:37 | the first position of a character (no earlier position holds it), or the length when absent |
| Transcript.FirstMAfterNumeral | src/screens/TranscriptScreen.tsx:37 | in the duration text the first `m` ends the minutes |
| Transcript.NumeralPrefix | src/screens/TranscriptScreen.tsx:37 | the minutes text and the rest split the duration text uniquely |
| Transcript.DurationTextParts | src/screens/TranscriptScreen.tsx:37 | the duration text is the minutes, then "m ", the seconds, "s" |
| Transcript.SecondsText | src/screens/TranscriptScreen.tsx:37 | the seconds text holds the seconds between "m " and "s" |
| Transcript.DurationTextInjective | src/screens/TranscriptScreen.tsx:37 | different minute/second pairs show differently |
| Transcript.InProgressIffNoEnd | src/screens/TranscriptScreen.tsx:31 | the duration reads "In progress" exactly when the end is unset |
| Transcript.SenderLabel | src/screens/TranscriptScreen.tsx:44 | "You" exactly for the human, "AI" for anything else |
| Transcript.BlockLayout | src/screens/TranscriptScreen.tsx:46 | a block is `[time] label:` then the content, and ends with a newline |
| Transcript.Blocks | src/screens/TranscriptScreen.tsx:42-47 | one block per message, in stored order |
| Transcript.PartStartTail | src/screens/TranscriptScreen.tsx:48 | where a part starts in a join, counted from the second part |
| Transcript.JoinHasPartAt | src/screens/TranscriptScreen.tsx:48 | every part occurs in the join at its offset |
| Transcript.JoinSnoc | src/screens/TranscriptScreen.tsx:48 | joining one more part appends the separator and that part |
| Transcript.ShareBodySnoc | src/screens/TranscriptScreen.tsx:42-48 | one more message appends "\n" and its block |
| Transcript.ShareBodyInOrder | src/screens/TranscriptScreen.tsx:42-48 | each message's block occurs in the body, followed by "\n" and the next block |
| Transcript.ShareContentLayout | src/screens/TranscriptScreen.tsx:50 | the share text starts with the title and shows the topic next; the human's side, the AI's side and the duration follow after their labels, in that order, inside the header; the text ends with the transcript |
| Transcript.FourPartLayout | src/screens/TranscriptScreen.tsx:50 | where the parts of a four-part concatenation sit |
| Transcript.MessageCountText | src/screens/TranscriptScreen.tsx:95 | the count is shown as a non-empty string of digits |
| Transcript.MessageCountReadsBack | src/screens/TranscriptScreen.tsx:95 | the count shown reads back as the number of messages |
| TopicSelection.GuardIsValidity | src/screens/TopicSelectionScreen.tsx:30-38 | the start guard and `isFormValid` test the same thing |
| TopicSelection.StartParams | src/screens/TopicSelectionScreen.tsx:29-38 | route parameters exactly when the form is valid: the trimmed, non-empty topic and the chosen side |
| TopicSelection.Hint | src/screens/TopicSelectionScreen.tsx:102-106 | a hint exactly when a side is chosen, naming the other side |
| TopicSelection.TopicSelectionScreen.constructor | src/screens/TopicSelectionScreen.tsx:26-27 | an empty topic and no side |
| TopicSelection.TopicSelectionScreen.SetTopic | src/screens/TopicSelectionScreen.tsx:57 | only the topic changes |
| TopicSelection.TopicSelectionScreen.SelectSide | src/screens/TopicSelectionScreen.tsx:72-89 | the new choice replaces any earlier one |
| TopicSelection.TopicSelectionScreen.IsFormValid | src/screens/TopicSelectionScreen.tsx:38 | valid exactly when the start guard passes |
| TopicSelection.TopicSelectionScreen.HandleStartDebate | src/screens/TopicSelectionScreen.tsx:29-36 | navigates exactly when the form is valid, with the trimmed topic and the side |
| RequestPath.GenerateBodyOf | src/services/api.ts:38-46 | the backend reads every generate field as present, with the side as text |
| RequestPath.OpeningBodyOf | src/services/api.ts:92-95 | the backend reads the opening topic and side as present |
| RequestPath.SideTextTruthy | backend/src/controllers/debateController.ts:29 | a side's text always passes the handler's truthiness test |
| RequestPath.OpeningRequestAccepted | backend/src/controllers/debateController.ts:29-32 | an opening posted for a non-empty topic passes validation |
| RequestPath.HistoryThenUserMessage | backend/src/controllers/debateController.ts:123-138 | a posted history ending in the human's message becomes the earlier messages, then that message twice |
| RequestPath.UserMessageSentTwice | backend/src/controllers/debateController.ts:125-138 | the client's posted history already ends with the new message, so an accepted message reaches the model as the earlier history in order, then two identical user entries with the trimmed input; a non-empty topic passes validation |
| RequestPath.StartedDebateRequestsAccepted | src/screens/TopicSelectionScreen.tsx:29-36 | a debate started from a valid form sends openings and messages that pass validation |

## Left out

- Rendering, styles, navigation, `Alert` and the scroll-to-end effect are UI. A navigation is shown as the value handed to it, and an alert as the text it would show.
- Speech playback (`src/services/speech.ts`) is a foreign call into expo-speech and is not part of this model. `speakText` is not modelled, and an error it might raise inside the opening's `try` is not modelled either.
- The Express server and its routing (`backend/src/index.ts`, `backend/src/routes/debate.ts`) are not part of this model. The axios client, its 30-second timeout and the provider SDK calls are inputs: how each call settled.
- The filesystem (`FileSystem.*`) and the JSON text format are left out.
  - Whether the write succeeded, what the read and parse produced, and the directory listing are parameters.
  - ISO text is abstract (`Storage.IsoTime`): its text is not spelled out; `new Date` reads it back as the instant.
  - The `RangeError` of `toISOString` beyond ±8.64·10^15 ms is modelled.
  - An ISO string that `new Date` cannot read (an Invalid Date with a `NaN` time) is not modelled.
- React's asynchronous state updates are left out. Each `setSession` updater is applied in the order the handler calls it, and the history posted is the session as the handler saw it on entry, plus the new message. The stale-closure timing behind that capture is not modelled.
- A single clock reading serves one message. The source calls `Date.now()` and `new Date()` separately for the id and for the timestamp, and the model takes them as one value.
- `toLocaleTimeString` depends on the locale. It is the `timeOf` parameter of the share text.
- The word bands use exact integer comparisons: `10 * count` against `9 * limit`, and `count` against `limit`. Floating-point rounding of `count / limit * 100` at the band edges is not modelled. For `limit <= 0` they match the source's `NaN` and `Infinity` outcomes.
- The system prompts are abbreviated. Only their first sentence is spelled out in full, the sentence that places the AI's side and the topic; the guideline lists after it are shortened.
- JSON request fields hold only strings or absent values. A field holding a number, an object or `null` is not modelled. Nor is a `conversationHistory` entry whose role is neither `user` nor `assistant`.
- `parseInt` is exact on unbounded integers. Digit strings beyond 2^53 lose precision in JavaScript, "-0" gives `-0`, and numbers of 10^21 and up print in exponent form. None of these is modelled.
- A reply with no content block makes the source throw a `TypeError`. The model gives it as `None`. The backend turns it into a 500. `AiService` turns it into `NoContentBlock`, whose message is given only by the error's name, "TypeError", since the full text depends on the JavaScript engine.
- The end-of-debate confirmation dialog is the `confirmed` input. No rule discards a reply that arrives after the end, because the source has none.
- `AiService` is modelled but not connected to `DebateController`, as in the source.

