# Cat care game: the pet simulation and the chat rate limiters, in Dafny

This project models the two pieces of sequential logic in the cat-care game.

- **The virtual cat** (`src/components/CatGame.jsx`). Three stats (hunger, happiness and energy) decay on a 2 s game loop. A mood classifier picks the face the cat shows. Three buttons: feed spends a coin, feed and play change the stats, and sleep toggles the sleep flag. The chat box checks its input locally before anything is sent.
- **The chat endpoint** (`netlify/functions/chat.js`). A process-wide map from caller address to the time of its last accepted request. Every POST that carries headers sweeps the map and then refuses a caller who comes back within 3 s; other methods are refused with 405 before the map is touched, and a request without a headers object skips the limiter.

Files and modules:

| file | module | what |
|---|---|---|
| `wrappers.dfy` | `Wrappers` | `Option` |
| `cat_stats.dfy` | `CatStats` | stats, decay tick, feed/play updates, mood classifier (pure functions) |
| `chat_window.dfy` | `ChatWindow` | `trim`, the rolling 60 000 ms window, the "at most three per window" theorem |
| `cat_game.dfy` | `CatGame` | class `Game`: the component's state and its handlers (imperative) |
| `chat_function.dfy` | `ChatFunction` | the handler as a specification function, class `RateLimiter` owning the map, lemmas over single requests and over runs |

Stats are `real`, so the 0.5 steps are exact. Times are integers in milliseconds and come in as a `now` parameter. The text generator is a parameter too: the reply it would give, or `None` when it fails.

The component's updates are given one independent reference definition, `ClampedAdd`: add a change to each stat, then clamp each stat to [0, 100]. The source uses one-sided `Math.min`/`Math.max`. Lemmas show that the two agree on in-range stats for the tick, feed and play.

The class `Game` keeps `Valid()`: stats in [0, 100], coins ≥ 0, and at most three window timestamps. `Load`, `Tick`, `Feed`, `Play` and `Sleep` state that they preserve it. The other methods may not touch the stats or the coins, and `SendMessage` keeps the bound on the timestamps. `SendMessage` and `ReceiveReply` only append to `messages` (`SubmitOnlyAppends`, and `ReceiveReply`'s own contract). No other method may modify `messages`.

Behaviour of the code worth knowing:

- The message window refuses a message when three or more timestamps are younger than 60 000 ms. So the third message within a minute is accepted and the fourth is refused. See `ChatWindow.ThirdWithinAMinuteAdmitted` and `ChatWindow.FourthWithinAMinuteRefused`.
- `feed` tests the coins first and `play` tests the energy first when choosing the refusal message. So "no coins" wins over "asleep", and "too tired" wins over "asleep".
- The actions return nothing; there is no `{applied, reason}` descriptor. Only the status message changes on a refusal.
- The delayed `updateCatState` does not check the sleep flag. The model keeps that: `Game.UpdateCatState` classifies by the stats alone.
- A request without a headers object makes the key lookup throw inside the rate-limiting `try`. The `catch` only logs. So such a request skips the sweep and the spacing check entirely (`ChatFunction.NoHeadersSkipsLimiter`).
- A body that parses but has no `stats` object (missing or `null`) makes the prompt building throw, and the handler answers 500 even though the rate slot was already used (`ChatFunction.AcceptRecordsNow`).
- The key uses JavaScript's `||`. So an empty `client-ip` header falls through to `x-forwarded-for`, and the key is never the empty string.

## Model

| member | source | states |
|---|---|---|
| CatStats.Decayed | src/components/CatGame.jsx:59-70 | from stats in [0,100], one tick (asleep or awake) leaves them in [0,100]; hunger and happiness never rise; energy does not fall while asleep and does not rise while awake |
| CatStats.DecayedIsClampedDecay | src/components/CatGame.jsx:61-69 | a tick on in-range stats equals the clamped addition of (-1, -0.5, +5) asleep and (-1, -0.5, -0.5) awake |
| CatStats.DecayedManyBounded | src/components/CatGame.jsx:57-72 | any number of ticks, in any sleep/awake pattern, keeps every stat in [0,100] |
| CatStats.HungerNeverRises | src/components/CatGame.jsx:57-72 | from in-range stats, over any number of ticks in any sleep/awake pattern, hunger and happiness never end above where they started |
| CatStats.Fed | src/components/CatGame.jsx:104 | feeding leaves happiness unchanged; on in-range stats it stays in range and does not lower hunger or energy |
| CatStats.FedIsClampedFeed | src/components/CatGame.jsx:104 | on in-range stats, feeding is the clamped addition of +25 hunger and +5 energy |
| CatStats.Played | src/components/CatGame.jsx:115 | on in-range stats, playing stays in range, raises happiness and lowers hunger and energy |
| CatStats.PlayedIsClampedPlay | src/components/CatGame.jsx:115 | on in-range stats, playing is the clamped addition of -10 hunger, +20 happiness and -15 energy |
| CatStats.Classify | src/components/CatGame.jsx:85-96 | sad exactly when the stat sum is below 120 (average below 40), or hunger is below 20, or happiness is below 20; happy otherwise; the sad text names hunger first, then boredom, then the generic text |
| CatStats.Appearance | src/components/CatGame.jsx:76-83 | asleep, the face is "sleeping" with the Zzz text whatever the stats; awake, it is happy or sad by the classifier's rule |
| CatGame.Game.constructor | src/components/CatGame.jsx:17-29 | the initial state: stats 80/80/80, 10 coins, awake, happy, one greeting turn, no timestamps; the invariant holds |
| CatGame.Game.Snapshot | src/components/CatGame.jsx:45 | the saved record holds exactly the current stats and coins |
| CatGame.Game.Load | src/components/CatGame.jsx:32-38 | each part present in the save replaces the current value; loading the current snapshot changes nothing; in-range saved data keeps the invariant |
| CatGame.Game.Tick | src/components/CatGame.jsx:57-72 | the stats become one decay step of the old stats under the current sleep flag; nothing else changes; the invariant is kept |
| CatGame.Game.OnStatsChange | src/components/CatGame.jsx:76-83 | the face becomes the one `Appearance` gives for the current stats and sleep flag |
| CatGame.Game.UpdateCatState | src/components/CatGame.jsx:85-96 | the face becomes the classifier's (happy or sad), without looking at the sleep flag |
| CatGame.Game.Feed | src/components/CatGame.jsx:98-108 | asleep or without a coin: stats, coins and mood unchanged, and the "no coins" text wins over "asleep"; otherwise coins drop by exactly 1, the stats are fed and the mood is eating; coins never go negative |
| CatGame.Game.Play | src/components/CatGame.jsx:110-119 | asleep or with energy below 20: stats and mood unchanged, and the "too tired" text wins over "asleep"; otherwise the stats are played and the mood is playing; coins are never touched |
| CatGame.Game.Sleep | src/components/CatGame.jsx:121-127 | the sleep flag flips; falling asleep shows the sleeping face at once; waking changes nothing else |
| CatGame.Game.TypeInput | src/components/CatGame.jsx:227 | the input text becomes what was typed |
| CatGame.Game.SendMessage | src/components/CatGame.jsx:133-153 | the outcome and the new transcript, input and timestamps are those of the specification `Submit` on the old chat state and the current hunger; a list of at most three timestamps stays at most three |
| CatGame.Submit | src/components/CatGame.jsx:133-153 | the chat state is unchanged exactly when the input is ignored; the input is either kept or cleared; only a sent message clears it and changes the timestamps, which then end with `now` and hold at most three |
| CatGame.BlankInputIgnored | src/components/CatGame.jsx:134 | input made only of white space leaves the chat state as it was, and nothing goes to the generator |
| CatGame.StarvingCatRefuses | src/components/CatGame.jsx:136-140 | with hunger at or below 0, the user's text and then the fixed refusal are appended, the input is cleared, and the timestamps are left alone |
| CatGame.FullWindowRefuses | src/components/CatGame.jsx:142-147 | with three or more timestamps in the window, only the "wait a little" turn is appended; the input and the timestamps are kept |
| CatGame.AcceptedMessageRecorded | src/components/CatGame.jsx:149-152 | otherwise the user's text is appended once, the input is cleared, the timestamps become the window plus `now` (at most three), and the text goes to the generator |
| CatGame.SubmitOnlyAppends | src/components/CatGame.jsx:133-153 | in every case the transcript only grows, by at most two turns; at most three timestamps stay at most three; only the user's own non-blank text reaches the generator |
| CatGame.SentTimesAreAdmitted | src/components/CatGame.jsx:133-153 | over any run of sends, the times at which messages reach the generator are exactly those the rolling window admits among the sends that pass the blank-input and hunger checks |
| CatGame.GatedInOrder | src/components/CatGame.jsx:134-140 | sends in clock order reach the window in clock order |
| CatGame.AtMostThreeReachGenerator | src/components/CatGame.jsx:133-153 | from an empty window with the clock never going back, of any four messages that reach the generator the last comes at least 60 000 ms after the first |
| CatGame.Game.ReceiveReply | src/components/CatGame.jsx:167-170 | the generator's reply, or the fixed apology when it failed, is appended as one cat turn |
| ChatWindow.TrimStart | src/components/CatGame.jsx:134 | the result is a suffix of the input, all that was dropped is white space, and it does not start with white space |
| ChatWindow.TrimEnd | src/components/CatGame.jsx:134 | the result is a prefix of the input, all that was dropped is white space, and it does not end with white space |
| ChatWindow.Trim | src/components/CatGame.jsx:134 | the trimmed text is no longer than the input and neither starts nor ends with white space |
| ChatWindow.TrimDropsOnlyWhiteSpace | src/components/CatGame.jsx:134 | the trimmed text is one slice of the input, and everything before and after that slice is white space |
| ChatWindow.TrimEmptyIffBlank | src/components/CatGame.jsx:134 | the trimmed text is empty exactly when every character is white space |
| ChatWindow.Recent | src/components/CatGame.jsx:143 | the window is no longer than the list and holds only timestamps younger than 60 000 ms |
| ChatWindow.RecentKeepsTheFresh | src/components/CatGame.jsx:143 | the window keeps every timestamp younger than 60 000 ms, as often as it occurs, and nothing else |
| ChatWindow.RecentOfSorted | src/components/CatGame.jsx:143 | on timestamps in time order, the window drops a prefix of stale entries and keeps the rest in order |
| ChatWindow.Admit | src/components/CatGame.jsx:143-152 | refused exactly when three or more timestamps are in the window; on admission the new list is the current window followed by `now`, at most three entries, all in the window |
| ChatWindow.AdmittedSpread | src/components/CatGame.jsx:143-152 | the invariant of the window over a run: with all admitted times kept, the window is a suffix of them and whatever left it is stale |
| ChatWindow.AtMostThreePerWindow | src/components/CatGame.jsx:143-152 | for requests in time order from an empty window, any four admitted messages span at least 60 000 ms |
| ChatWindow.ThirdWithinAMinuteAdmitted | src/components/CatGame.jsx:144 | three messages at 0, 5 and 10 ms are all admitted |
| ChatWindow.FourthWithinAMinuteRefused | src/components/CatGame.jsx:143-144 | after those, a fourth at 20 ms or 59 999 ms is refused and one at 60 000 ms is admitted |
| ChatFunction.RateKey | netlify/functions/chat.js:12 | the key is never empty; it is a non-empty client-ip header, else a non-empty x-forwarded-for header, else "unknown" |
| ChatFunction.Last | netlify/functions/chat.js:21 | the key's recorded time, or 0 when the map has no entry for it |
| ChatFunction.Swept | netlify/functions/chat.js:16-18 | after the sweep no entry is more than 60 000 ms old, and every entry at most 60 000 ms old is kept with its value |
| ChatFunction.SweepAgain | netlify/functions/chat.js:16-18 | sweeping at one time and again later equals one sweep at the later time |
| ChatFunction.RateGate | netlify/functions/chat.js:11-34 | without headers the error is swallowed and the map passes unchanged; with headers, no entry older than 60 000 ms is left, a request let through is recorded at `now`, and a throttled one leaves only the sweep |
| ChatFunction.Respond | netlify/functions/chat.js:4-85 | a 429 leaves exactly the swept map; the only key the handler can add is the caller's own, and a new entry holds `now` |
| ChatFunction.Answer | netlify/functions/chat.js:37-83 | 200 with the reply text exactly when the body parses, its stats can be read for the prompt, and the generator answers; otherwise 500 with the fixed error body |
| ChatFunction.MethodCheckedFirst | netlify/functions/chat.js:6-8 | the status is 405 exactly for a non-POST request, and then the map is untouched |
| ChatFunction.StatusCodes | netlify/functions/chat.js:4-85 | the handler answers only 200, 405, 429 or 500 |
| ChatFunction.TooSoonIsThrottled | netlify/functions/chat.js:21-28 | less than 3 000 ms after the key's last accepted time (a missing key counts as 0): 429, and the map is only swept, not renewed |
| ChatFunction.AcceptRecordsNow | netlify/functions/chat.js:31-38 | a request let through sets its key to `now` on top of the sweep and nothing else; a malformed body still uses up the slot and gets 500 |
| ChatFunction.NoHeadersSkipsLimiter | netlify/functions/chat.js:11-12 | a request without headers is neither swept, throttled nor recorded |
| ChatFunction.PassedMeansSpaced | netlify/functions/chat.js:16-31 | a request let through comes at least 3 000 ms after its key's recorded time, even if the sweep removed that entry |
| ChatFunction.SameSourceSpaced | netlify/functions/chat.js:16-31 | over a run in time order, two requests from one source that both pass the limiter are at least 3 000 ms apart |
| ChatFunction.RememberedSince | netlify/functions/chat.js:16-31 | after a source's request passes, the map keeps a time for it no earlier than that request until more than 60 000 ms have passed |
| ChatFunction.SourceRecorded | netlify/functions/chat.js:21-31 | a POST under a key that is not refused with 429 leaves that key mapped to its own time |
| ChatFunction.EntryKeptSince | netlify/functions/chat.js:16-31 | a request at most 60 000 ms after time t keeps any entry recorded at t or later, and never replaces it with a time before t |
| ChatFunction.RateLimiter.constructor | netlify/functions/chat.js:2 | the map starts empty |
| ChatFunction.RateLimiter.Sweep | netlify/functions/chat.js:16-18 | the loop deletes exactly the entries more than 60 000 ms old and leaves the others as they were |
| ChatFunction.RateLimiter.Handle | netlify/functions/chat.js:4-85 | the response and the new map are those of the handler's specification `Respond` |

## Left out

- Rendering, CSS and scrolling (`CatGame.jsx:129-131, 175-236`) and `src/App.jsx`: user interface and sign-in wiring only.
- Persistence through the identity provider's `user.update`: a foreign asynchronous call. Only its payload (`Snapshot`) and the loading effect (`Load`) are modelled. The 30 s save timer is not modelled.
- `setInterval` and `setTimeout` scheduling: the game loop and the 2 s reclassification are methods a caller invokes (`Tick`, `UpdateCatState`); `Snapshot` is the record a save would send.
- React state semantics. In the component, the stats effect runs right after every stats change, so the "eating" and "playing" faces are replaced at once. The timeout's `updateCatState` reads the stats captured when the timer was set. The model runs each effect only when it is called, always on the current state.
- The text generator calls and prompt building (`CatGame.jsx:155-166`, `chat.js:40-67`): network I/O and string templating. The generator is a parameter, or `None` when it fails. In the handler that covers transport errors, a non-ok status (`chat.js:69-71`) and a reply without `candidates`, `content` or `parts`. The component (`CatGame.jsx:167-168`) never checks `response.ok`: it fails on transport errors and on a reply without `candidates`, `content` or `parts`, which is how a non-ok reply fails there.
- A reply whose first part has no `text` field: the handler then answers 200 with the body `{}` and the component appends a cat turn with no text. The model's generator either gives a string or fails.
- `console.log`/`console.error` and the `isTyping` flag: logging and UI only. The send button is disabled while `isTyping` is set (`CatGame.jsx:231`), but the Enter key handler (`CatGame.jsx:228`) calls `sendMessage` regardless; the model's `SendMessage` has no such guard, matching the Enter path.
- JSON encoding of the response bodies: the model returns their structure (`Plain`, `ErrorJson`, `TextJson`), not the encoded text. Of the request body, the model keeps whether it parses, whether its stats can be read, and the message; the message is kept but never used, and the stat values are not kept, since both only feed the prompt.
- CatGame.Game.Load: loaded values are taken as real numbers and integer coins. Non-numeric or `null` saved values are not modelled.
- CatGame.Game.SendMessage: JavaScript strings are UTF-16 code units; the model uses Dafny characters, with the ECMAScript white-space and line-terminator set for `trim`.
