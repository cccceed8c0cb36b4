# Emotion-aware prompt assembly of chatbot.py, in Dafny

`chatbot.py` is a desktop chat assistant. Each user message goes through
four steps:

1. A multi-label emotion classifier scores the message.
2. `analyze_emotion` turns those scores into an emotion profile: the
   dominant label, an emoji summary of the top three emotions, a tone
   directive and a blend description.
3. `get_realtime_context` describes the moment: the date, the part of the
   day, CPU load, battery and the weather. The weather comes from a
   five-minute cache kept by `get_weather`.
4. `ai_reply` folds all of this into one prompt. It appends the prompt to
   the rolling `chat_history`, which is capped at 12 entries by evicting the
   oldest two. It then sends the history to the chat model and appends the
   stripped answer.

This project models those four steps and proves what they guarantee.

- `wrappers.dfy` (module `Wrappers`): `Option` and `Result`.
- `text.dfy` (module `Text`): the string operations the code relies on.
  These are `str.join`, `split(c)[0]`, `capitalize` and `strip`. `strip`
  uses the characters Python's `str.isspace` accepts.
- `emotion.dfy` (module `Emotion`):
  - `analyze_emotion` and its two lookup tables;
  - the stable descending sort, as an insertion sort over
    (tag, score) pairs;
  - the top-three cut, the label normalisation, the summary loop (a
    method) and the blend conditional.
- `context.dfy` (module `Context`):
  - the day-part bucketing;
  - the weather cache as a function from the old cache to the new one;
  - the context sentence.
- `chat.dfy` (module `Chat`):
  - the prompt, eviction, and the history after one call;
  - runs of calls;
  - the class `Chatbot`. It holds the module globals `_last_weather`,
    `_last_time` and `chat_history` as fields. Its methods are
    `get_weather`, `get_realtime_context` and `ai_reply`, each proved
    against the functions above.

Three behaviours of chatbot.py that a reader might not expect:

- **A failed chat call is not rolled back.** The prompt is appended to
  `chat_history` before `ollama.chat` is called (line 132), and nothing
  removes it when that call raises, so it stays (`FailedCallKeepsPrompt`).
  A later answered call then leaves two user turns in a row
  (`FailedCallBreaksPairs`).
- **Eviction runs after the user append only** (lines 133-134), not after
  the assistant append (line 142). A stored history can therefore hold 13
  entries: an answered call on an 11-entry history adds two entries
  without evicting (`AnsweredCallReachesThirteen`). An odd length such as
  11 arises only after some earlier call raised. It never exceeds 13
  (`HistoryAtMostThirteen`), and under answered calls alone it stays at 12
  or below (`ReplayLength`).
- **The weather window runs from the last refetch, not from the previous
  call.** Two calls one second apart can see different weather
  (`WindowStartsAtRefetch`); every call within 300 seconds after a
  refetch sees its result (`RefetchHoldsForWindow`). A gap of exactly 300
  seconds still counts as fresh, because the test is a strict `>` (line 82).

## Model

| member | source | states |
|---|---|---|
| Text.JoinAppend | chatbot.py:60 | joining two non-empty lists equals joining each and putting one separator between them |
| Text.JoinAt | chatbot.py:60 | every part sits in the joined text in its own place: the joined parts before it, a separator unless it is first, the part, a separator unless it is last, then the joined parts after it |
| Text.BeforeFirst | chatbot.py:49 | `split(c)[0]` is a prefix of the input that contains no `c`; when it is shorter than the input, the next character is `c` |
| Text.BeforeFirstUnique | chatbot.py:49 | those three properties pin the result down: any string that has them is `split(c)[0]` |
| Text.Capitalize | chatbot.py:58 | `capitalize` keeps the length, upper-cases the first character and lower-cases all the others |
| Text.CapitalizeIdempotent | chatbot.py:58 | capitalizing an already capitalized label changes nothing |
| Text.CapitalizeLowerLabel | chatbot.py:58 | a label without capitals, such as every key of EMOJI_MAP, changes only in its first character |
| Text.TrimStartSpec | chatbot.py:141 | `lstrip` returns a suffix; everything it cuts is white space, and what remains does not start with white space |
| Text.TrimEndSpec | chatbot.py:141 | `rstrip` returns a prefix; everything it cuts is white space, and what remains does not end with white space |
| Text.StripSpec | chatbot.py:141 | `strip` returns a contiguous slice of its input, with only white space cut off on either side |
| Text.StripEnds | chatbot.py:141 | a non-empty stripped text neither starts nor ends with white space |
| Text.StripIdempotent | chatbot.py:84 | stripping an already stripped text changes nothing |
| Emotion.SortPermutes | chatbot.py:45 | the sort (SortByScore) neither drops nor adds an entry: same multiset |
| Emotion.SortIsStable | chatbot.py:45 | the sort orders by non-increasing score and keeps the entries of every score in their original order (stability) |
| Emotion.StableSortUnique | chatbot.py:45 | any non-increasing arrangement that keeps every group of equal scores in its original order equals the sort's result, so the model is Python's stable `sorted(..., reverse=True)` |
| Emotion.SortHeadIsFirstHighest | chatbot.py:45-50 | the first ranked entry is the earliest classifier entry with the highest score |
| Emotion.TopEmotionsSpec | chatbot.py:45-48 | the top list has min(3, n) entries in non-increasing score order; within each score it keeps the classifier's order as a prefix of that score's entries |
| Emotion.TopFromResults | chatbot.py:48 | every top entry comes from the classifier's output, counted with multiplicity |
| Emotion.TopEmotionsAreHighest | chatbot.py:45-48 | any classifier entry left out of the top list scores no higher than every entry kept |
| Emotion.LookupsTotal | chatbot.py:51-57 | both lookups always give a non-empty text. The tone is the default exactly when the label is not in TONE_GUIDE, and otherwise is the table's phrase. The emoji is the default glyph exactly when the label is unknown or is "curiosity" |
| Emotion.TablesShareLabels | chatbot.py:19-40 | EMOJI_MAP and TONE_GUIDE know exactly the same labels |
| Emotion.SummaryPartsInOrder | chatbot.py:54-60 | the summary holds one part per top emotion, in top-list order, with ", " between neighbours |
| Emotion.BuildSummary | chatbot.py:54-60 | the summary loop and the join produce exactly the specified summary |
| Emotion.BlendShapes | chatbot.py:62-69 | the blend is the label itself for one label, "both A and B" for two, and "a mix of A, B and C" for three |
| Emotion.AnalyzeEmotion | chatbot.py:42-72 | the method returns the profile ProfileOf defines for its input; it fails exactly when the classifier output is empty (the `top_labels[0]` IndexError) |
| Emotion.DominantIsFirstHighest | chatbot.py:49-51 | for a non-empty input the dominant label is the part before the first `_` of the earliest highest-scoring tag; it contains no `_`, and the tone is looked up from it |
| Emotion.BlendOfProfile | chatbot.py:62-69 | with 1, 2, or 3 or more classifier entries, the profile's blend has the one-, two- or three-label shape over the top labels |
| Emotion.HappyAndNervousExample | chatbot.py:42-72 | worked example: fear 0.30, joy 0.80, surprise 0.10 give dominant "joy", tone "positive and cheerful" and blend "a mix of joy, fear and surprise" |
| Context.DayPartBuckets | chatbot.py:93-100 | the bucketing DayPartOf gives morning iff 5 <= hour < 12, afternoon iff 12 <= hour < 18, evening iff 18 <= hour < 22, night otherwise |
| Context.DayPartBoundaries | chatbot.py:93-100 | the boundary hours: 4 is night, 5 and 11 morning, 12 and 17 afternoon, 18 and 21 evening, 22 night |
| Context.RefreshWeatherSpec | chatbot.py:80-88 | one cache step (RefreshWeather): a fresh cache (at most 300 s old) is left unchanged. A stale one gets the stripped response, or "weather unavailable" on failure, stamped with the clock after the request in both cases. The value is set exactly when it was set before or the cache was stale |
| Context.RefetchHoldsForWindow | chatbot.py:82-88 | after a refetch, successful or not, any call at most 300 s after the refetch ended returns the same value and changes nothing |
| Context.WindowStartsAtRefetch | chatbot.py:82-87 | two calls one second apart can return different weather, and a gap of exactly 300 s is still fresh |
| Context.ContextNamesDayPart | chatbot.py:109-112 | the context sentence names the day part in parentheses |
| Context.ContextEndsWithWeather | chatbot.py:109-112 | the context sentence ends with "Weather: <weather>." |
| Chat.PromptStartsWithContext | chatbot.py:123-130 | the prompt (Prompt) opens with the context sentence followed by a newline |
| Chat.PromptNamesBlend | chatbot.py:123-130 | the prompt contains "The user’s emotions appear to be <blend>." |
| Chat.PromptListsSummary | chatbot.py:123-130 | the prompt contains "Detected emotional tones: <summary>." |
| Chat.PromptNamesTone | chatbot.py:123-130 | the prompt contains "Respond empathetically in a <tone> tone. " |
| Chat.PromptEndsWithMessage | chatbot.py:123-130 | the prompt ends with "User: " followed by the raw user message |
| Chat.Evict | chatbot.py:133-134 | above 12 entries exactly two are dropped, otherwise none; the result is always a suffix of the input, so the rest keep their order |
| Chat.AnsweredCallShape | chatbot.py:132-142 | one call's history update (ChatStep): an answered call on a history of at most 12 entries with a length other than 11 keeps the history, or everything after its first two entries when it had 12. It then adds the prompt as a user turn and the stripped answer as an assistant turn |
| Chat.AnsweredCallKeepsEven | chatbot.py:132-142 | an even history of at most 12 entries stays even and at most 12 after an answered call, and its last two entries are the new user/assistant pair |
| Chat.AnsweredCallKeepsPairs | chatbot.py:132-142 | an answered call on strictly alternating user/assistant pairs of at most 12 entries gives alternating pairs again |
| Chat.AnsweredCallLength | chatbot.py:132-142 | on alternating pairs, an answered call adds two entries below the cap and keeps the length at 12 when full |
| Chat.HistoryAtMostThirteen | chatbot.py:132-142 | whatever the chat call does, a history of at most 13 entries stays at most 13; an even history of at most 12 stays at most 12 when the call answers |
| Chat.AnsweredCallReachesThirteen | chatbot.py:132-142 | an answered call on an 11-entry history leaves 13 entries, since eviction runs before the answer is appended |
| Chat.FailedCallKeepsPrompt | chatbot.py:132-140 | when the chat call raises, the history is the evicted history plus the prompt, and the prompt is its newest entry |
| Chat.FailedThenAnswered | chatbot.py:132-142 | from an empty history, a failed call and then an answered one leave [prompt 1, prompt 2, answer] |
| Chat.FailedCallBreaksPairs | chatbot.py:132-142 | after that sequence the history is no longer alternating user/assistant pairs |
| Chat.ReplayLength | chatbot.py:132-142 | from alternating pairs, n answered calls give alternating pairs of length min(length + 2n, 12) |
| Chat.UnansweredPileUp | chatbot.py:132-134 | below the cap, prompts of failed calls accumulate in order with nothing evicted |
| Chat.ThirteenUnanswered | chatbot.py:132-134 | thirteen prompts appended one by one to an empty history leave exactly the latest eleven |
| Chat.Chatbot.constructor | chatbot.py:78 | the state starts with no weather, time stamp 0 and an empty history |
| Chat.Chatbot.GetWeather | chatbot.py:80-88 | the cache fields move as RefreshWeather says, the returned value is the cached value, and the history is untouched |
| Chat.Chatbot.GetRealtimeContext | chatbot.py:90-112 | the result is the context sentence for the reading's day part, battery (or "unknown") and the cached weather (rendered "None" if never fetched); the cache moves as RefreshWeather says |
| Chat.Chatbot.AiReply | chatbot.py:120-143 | the message list sent is the old history plus the prompt, after eviction. The new history is one ChatStep of the old one. The reply is the stripped answer, or none when the call raised |

## Left out

- The Tkinter GUI, `send`, `process_message` and the `chat_log` writes
  (chatbot.py:149-190). They are user-interface plumbing.
- The per-message `threading.Thread` (chatbot.py:181). The model is
  single-threaded, so concurrent `ai_reply` calls racing on `chat_history`
  and the weather cache are not captured.
- The transformers pipeline and CUDA device choice (chatbot.py:10-16, 44).
  The classifier's output is the input sequence of (tag, score) pairs.
- `ollama.chat` (chatbot.py:136-140). Its answer is an `Option<string>`
  parameter, with None when the call raised. The raised exception itself
  is not propagated; `AiReply` returns None instead.
- `requests.get` (chatbot.py:84) is an `Option<string>` parameter. Both
  `time.time()` reads (chatbot.py:82, 87) are real-valued parameters.
- `datetime.now()`, `strftime`, `psutil.cpu_percent` and the battery sensor
  (chatbot.py:91, 102-106, 110) are pre-rendered strings in `Readings`; the
  battery is None when the sensor read raised.
- The scores' float type and `:.2f` rendering (chatbot.py:58). Scores are
  integers, since only their order matters, and the rendering is the
  `formatScore` parameter.
- Text.Capitalize: Python's Unicode case mapping is reduced to ASCII
  letters; other characters pass through unchanged.
- The model name, `num_predict` and the weather URL and timeout are
  constants of foreign calls and have no effect on the modelled state.
