# LastEmote combo engine in Dafny

LastEmote is a stream overlay that shows the chat emote viewers are currently
spamming, with a combo counter that grows on every repeat, decays after a
quiet period, and drives a "fire" drawn behind the counter. All of its logic
lives in `src/script.js`. This project models the core of that script and
proves properties of the model:

- the combo/decay state machine (`showEmote`, the fade timer and its callback,
  `resetCombo`, `startComboDecay`/`decayStep`, the 800 ms cleanups);
- the decay-step delay (`getComboDecayInterval`) and the fire size (`updateFireEffect`);
- the word scan of a chat line (`ws.onmessage`), with the channel map consulted
  before the global map;
- `buildEmoteUrl` and the loops of `load7TVEmotes` that fill the two maps;
- `mergeConfigWithUrlParams`.

| file | module | what it holds |
|---|---|---|
| `common.dfy` | `Common` | `Option` (JavaScript's `null`), min/max helpers |
| `decay.dfy` | `Decay` | `DecayInterval` and its curve |
| `fire.dfy` | `Fire` | `FireSize` |
| `scan.dfy` | `Scan` | whitespace split, trailing-punctuation strip, first-hit scan (`ScanMessage`, a loop with early return) |
| `catalog.dfy` | `Catalog` | `BuildEmoteUrl`, the loading loop `LoadEmotes` |
| `settings.dfy` | `Settings` | the configuration merge, as written and as intended |
| `combo.dfy` | `Combo` | the engine state, its events and one transition function per script function or callback |
| `combo_props.dfy` | `ComboProps` | the invariant and the properties of single events and of runs |
| `engine.dfy` | `Overlay` | class `Engine`: the script's module-level variables as fields, each function or callback as a method proved to perform the `Combo` transition |

Timers are modelled as pending flags: arming sets the flag, and the
environment later delivers `FadeFired`, `DecayStepFired`, `CleanupFired`,
`ImageLoaded` or `ImageFailed`. A timer that is not pending cannot fire. The
800 ms cleanups are never cancelled and all have the same delay, so they form a
first-in first-out queue. The state records, besides the script's variables,
whether the emote container is displayed and opaque, whether the counter is
displayed, and the fire's size.

The invariant `Combo.Inv` holds in every reachable state: a pending decay step
always has a positive count to take down. The zero-count branch of
`decayStep` (src/script.js:359-363) is therefore never taken; the method
`Overlay.Engine.OnDecayStep` proves that branch dead, and the transition
function `Combo.DecayStep` still spells it out.

Where the design description of the system and the code disagree, the model
follows the code:

- There is no generation counter. Stale timers are not detected. An 800 ms
  cleanup forgets the current emote even when a newer emote has started since
  (`ComboProps.CleanupForgets`).
- A different emote cancels the decay only when a decay step is pending
  (src/script.js:574-578). In the 800 ms after a decay reaches 0, the decaying
  flag stays set. A new emote shown in that window cannot build a combo: its
  repeats take the "same emote during decay" branch and leave the count at 1
  (`ComboProps.StaleDecayFlagSwallowsRepeats`). "n observations give a count of
  n" holds outside that window (`ComboProps.FreshStreakCounts`).
- A different emote does not clear the previous combo's counter and fire
  (src/script.js:573-605). They stay until the new image loads, and stay
  for good if the load fails (`ComboProps.NewEmoteRestarts`).
- The same emote in the 800 ms after its decay reached 0 is still treated as
  a repeat during decay. Its count stays 0 instead of starting over at 1
  (`ComboProps.SameEmoteAfterDecayStaysZero`).
- With `comboSave` off, the same emote during decay leaves the decay step
  pending and re-arms the fade timer as well (src/script.js:529-548). Nothing
  is cancelled or paused.
- A new emote restarts the count at once, but the fade timer is re-armed only
  when its image loads, never when loading fails.
- The emote name is cleared only by the cleanup, 800 ms after the count
  reaches 0, not at that moment.
- There are two emote sources, the channel map and the global map. There are
  no native chat-emote tags, no per-source enable flags and no other sources.

## Model

| member | source | states |
|---|---|---|
| `Decay.DecayInterval` | src/script.js:371-376 | The delay is always between 100 and 500 ms. It is 500 for a combo of at most 1 and 100 from 41 on. In between it is 510 − 10·combo. |
| `Decay.DecayIntervalNonIncreasing` | src/script.js:371-376 | A larger combo never gets a longer delay. |
| `Decay.DecayIntervalStrictOnRamp` | src/script.js:374 | Between 1 and 41, each extra repeat makes the delay strictly shorter. |
| `Fire.FireSize` | src/script.js:384-397 | There is no fire exactly when `fireShow` is off, `showCombo` is off, or the combo is below the threshold. Otherwise the size never exceeds `maxFire`, is at least 1 when `maxFire` ≥ 1, and equals min(maxFire, 1 + (combo − threshold)/11), so the lower clamp never binds. |
| `Fire.FireSizeCalibration` | src/script.js:392-397 | The size is 1 at the threshold and 2 eleven repeats later, when the cap allows. |
| `Fire.FireSizeMonotone` | src/script.js:396-397 | A larger combo never gives a smaller fire. |
| `Scan.Words` | src/script.js:635 | Splitting on whitespace gives at least one word, and no word contains whitespace. |
| `Scan.WordsCoverText` | src/script.js:635 | Concatenated in order, the words are exactly the line's non-whitespace characters. |
| `Scan.WordsShape` | src/script.js:635 | A line without whitespace is a single word. Only the first and last words can be empty. The first word is non-empty whenever the line starts with a non-whitespace character. |
| `Scan.GapsBetweenWords` | src/script.js:635 | There is exactly one whitespace run between each two neighbouring words. |
| `Scan.GapsAreRuns` | src/script.js:635 | Each of those runs is non-empty and all whitespace. |
| `Scan.WordsBreakAtRuns` | src/script.js:635 | The line is its words joined by those runs, in order. Since words hold no whitespace, the words break exactly at the maximal whitespace runs and nowhere else. |
| `Scan.Clean` | src/script.js:637 | The cleaned word is a prefix of the word and does not end in `. , ; : ! ? )`. Every removed character is in that class. |
| `Scan.CleanIdempotent` | src/script.js:637 | Cleaning twice gives the same result as cleaning once. |
| `Scan.FirstHitMeaning` | src/script.js:636-647 | There is no hit exactly when no cleaned word is in either map. Otherwise the hit is the cleaned form of the first matching word. Its URL comes from the channel map whenever that map has the name, else from the global map. |
| `Scan.ScanMessage` | src/script.js:635-647 | The loop with early return gives exactly the first hit of the line's words. |
| `Catalog.Webp` | src/script.js:230 | The filter keeps only WEBP files and is never longer than its input. |
| `Catalog.WebpExact` | src/script.js:230 | A file is kept exactly when it is in the list and its format is WEBP. |
| `Catalog.WebpOne` | src/script.js:230 | A single file is kept exactly when its format is WEBP. |
| `Catalog.WebpAppend` | src/script.js:230 | The filter distributes over concatenation. With `WebpOne`, this fixes the result: the WEBP files in their original order, each kept once. |
| `Catalog.Widest` | src/script.js:232-233 | Picks the file a stable ascending sort by width puts last. No file is wider, and every later file is strictly narrower. |
| `Catalog.WidestPrefersLater` | src/script.js:232-233 | Between two WEBP files of equal width, the later one is taken. |
| `Catalog.BestUnique` | src/script.js:232-233 | Only one file can satisfy that description. |
| `Catalog.BuildEmoteUrlNone` | src/script.js:229-231 | There is no URL exactly when the emote has no WEBP file. This covers missing data, a missing host, and an absent or empty file list. |
| `Catalog.BuildEmoteUrlPicksBest` | src/script.js:232-237 | A URL is `"https:"` + the base URL (the first one if `host.url` is an array) + `"/"` + the name of the best WEBP file. |
| `Catalog.EmoteMapKeys` | src/script.js:247-249 | A name is in the loaded map exactly when some entry for it yields a URL. |
| `Catalog.EmoteMapValue` | src/script.js:259-261 | A loaded name maps to the URL of the last entry for it that yields one (last write wins). |
| `Catalog.LoadEmotes` | src/script.js:247-250 | The loading loop leaves exactly the map `EmoteMap` describes. |
| `Settings.MergeAsWritten` | src/script.js:31-43 | The merge as written keeps every default key and adds every URL parameter whose name is inherited from `Object.prototype`. |
| `Settings.MergeAsWrittenAcceptsInheritedName` | src/script.js:37 | A `toString` parameter ends up in the merged configuration. |
| `Settings.MergeConfig` | src/script.js:35-39 | The intended merge has exactly the default keys. A parameter overrides its default unless the key is `debugurl`. |
| `Settings.MergeAsWrittenExtendsIntended` | src/script.js:36-39 | Both merges agree on every default key. They are equal when no inherited name is passed. |
| `Settings.MergeConfigIdempotent` | src/script.js:31-43 | Merging the same parameters again changes nothing. |
| `ComboProps.InitInv` | src/script.js:105-111 | The start-up state meets the invariant and has no timer pending. |
| `ComboProps.RefreshKeeps` | src/script.js:552-568 | The shared tail of a repeat changes only the fade timer, the visibility, the counter and the fire. The fire follows the count. |
| `ComboProps.ObservePreservesInv` | src/script.js:494-606 | `showEmote` keeps the invariant. |
| `ComboProps.ImageLoadPreservesInv` | src/script.js:583-600 | The image's `onload` keeps the invariant. |
| `ComboProps.FadePreservesInv` | src/script.js:281-306 | The fade callback keeps the invariant. |
| `ComboProps.DecayStepPreservesInv` | src/script.js:319-364 | A decay step keeps the invariant, so it never drives the count below 0. |
| `ComboProps.CleanupPreservesInv` | src/script.js:340-349 | A cleanup keeps the invariant. |
| `ComboProps.StepPreservesInv` | src/script.js:494-606 | Every event keeps the invariant. |
| `ComboProps.RunPreservesInv` | src/script.js:105-111 | Every sequence of events keeps the invariant. |
| `ComboProps.NoFadeTimeoutNoTimers` | src/script.js:271-272 | With `fadeTimeout` ≤ 0, no fade timer, decay step or cleanup is ever pending after any run, and the timer events change nothing. |
| `ComboProps.MissingUrlHides` | src/script.js:495-498 | An emote without a URL only hides the container. |
| `ComboProps.RepeatIncrements` | src/script.js:549-570 | The current emote again, while not decaying, raises the count by exactly one. It also re-arms the fade timer (when the timeout is positive), shows the emote and updates the fire. |
| `ComboProps.NewEmoteRestarts` | src/script.js:573-605 | A different emote becomes current with a count of exactly 1. A pending decay step of a decaying combo is cancelled; otherwise the decay state is untouched. The fade timer is left for the image load. The previous combo's counter, fire, visibility and pending cleanups are unchanged. |
| `ComboProps.RepeatDuringDecay` | src/script.js:500-548 | The current emote during decay never changes the count and always re-arms the fade timer. With `comboSave` the pending step is cancelled; without it the step and the flag stay. |
| `ComboProps.ImageLoadArmsFade` | src/script.js:583-600 | A load re-arms the fade timer when the timeout is positive, shows the emote, and shows the counter exactly when `showCombo` is on and the count is above 1. |
| `ComboProps.ImageErrorHides` | src/script.js:601-604 | A failed load hides the container and arms no fade timer. |
| `ComboProps.FadeExpiry` | src/script.js:281-306 | Without the decay animation the count drops to 0 and a cleanup is queued. With it, a live combo starts decaying after `DecayInterval(count)`, and a zero combo is cleared at once. |
| `ComboProps.DecayStepLowersByOne` | src/script.js:319-364 | A step lowers the count by exactly one. While the count stays positive, it re-arms with the delay for the new count. At 0, no step is pending and a cleanup is queued. |
| `ComboProps.CleanupForgets` | src/script.js:340-349 | A cleanup (of either kind; the fade one is src/script.js:296-301) hides the container and forgets the current emote, whatever it is. A decay cleanup also clears the decaying flag. |
| `ComboProps.StreakCounts` | src/script.js:549-570 | n repeats of the current emote, while it is not decaying, raise the count by exactly n. |
| `ComboProps.FreshStreakCounts` | src/script.js:573-581 | n ≥ 1 observations of a new emote give a count of exactly n, outside the stale-flag window. |
| `ComboProps.DecayRunsDown` | src/script.js:319-364 | Once started, a decay reaches 0 in exactly `count` steps and queues one cleanup. |
| `ComboProps.SixInARow` | src/script.js:549-568 | With the shipped defaults, six observations give a count of 6 and a fire of size 12/11. |
| `ComboProps.StaleDecayFlagSwallowsRepeats` | src/script.js:574-578 | After a decay reaches 0, a new emote's repeat leaves its count at 1. The old cleanup then forgets the new emote. |
| `ComboProps.DecayToZero` | src/script.js:333-349 | With the shipped defaults, a single emote whose fade timer and one decay step have fired has count 0. No step is pending, but the decaying flag is still set and one cleanup is queued. |
| `ComboProps.SameEmoteAfterDecayStaysZero` | src/script.js:500-548 | The same emote again in that window is taken as a repeat during decay. The count stays 0 instead of starting over at 1. |
| `Overlay.Engine.constructor` | src/script.js:105-111 | Start-up: no emote, count 0, no timer pending. |
| `Overlay.Engine.ResetFadeTimer` | src/script.js:271-280 | Performs `Combo.ResetFadeTimer`: nothing when the timeout is ≤ 0; otherwise re-arm and show. |
| `Overlay.Engine.UpdateFireEffect` | src/script.js:379-397 | Sets the fire to `FireSize` of the current count. |
| `Overlay.Engine.StartComboDecay` | src/script.js:310-368 | Sets the decaying flag and arms a step with `DecayInterval(count)`. |
| `Overlay.Engine.ResetCombo` | src/script.js:474-491 | Decays a live combo, otherwise hides the counter and the fire. |
| `Overlay.Engine.Refresh` | src/script.js:552-568 | Performs the shared tail of a repeat. |
| `Overlay.Engine.ShowEmote` | src/script.js:494-606 | Performs `Combo.ShowEmote` and keeps the invariant. |
| `Overlay.Engine.RepeatEmote` | src/script.js:500-571 | Performs the three repeat branches. |
| `Overlay.Engine.NewEmote` | src/script.js:573-605 | Performs the new-emote branch. |
| `Overlay.Engine.OnImageLoad` | src/script.js:583-600 | Performs `Combo.OnImageLoad` and keeps the invariant. |
| `Overlay.Engine.OnImageError` | src/script.js:601-604 | Performs `Combo.OnImageError` and keeps the invariant. |
| `Overlay.Engine.OnFadeTimer` | src/script.js:281-306 | Performs `Combo.OnFade` and keeps the invariant. |
| `Overlay.Engine.OnDecayStep` | src/script.js:319-364 | Performs `Combo.DecayStep` and keeps the invariant. The zero-count branch is proved unreachable. |
| `Overlay.Engine.DecayLower` | src/script.js:321-332 | A step from a count above 1 is `Combo.DecayStep`: one down, the fire follows, the next step is re-armed. |
| `Overlay.Engine.DecayFinish` | src/script.js:333-357 | The step from 1 is `Combo.DecayStep`: the count is 0, the counter and the fire are hidden, the emote fades, and its 800 ms cleanup is queued. |
| `Overlay.Engine.OnCleanup` | src/script.js:340-349 | Performs `Combo.OnCleanup` and keeps the invariant. |
| `Overlay.Engine.OnChatMessage` | src/script.js:635-647 | A chat line with no known emote changes nothing. Otherwise the engine performs `showEmote` for the scan's first hit. |

## Left out

- The IRC client over WebSocket is network I/O: connecting, CAP/PASS/NICK/JOIN, PING/PONG, the 5 s reconnect, the PRIVMSG pattern and the display-name extraction. The scan takes the message text as input.
- Fetching from ivr.fi and 7tv.io, JSON decoding and the start-up sequence are network I/O. The loaded maps are inputs of `Overlay.Engine`, and `Catalog.LoadEmotes` takes the response's entries as already-decoded data.
- `getUrlParams` is left out: its string coercion depends on JavaScript's `isNaN`/`Number`. The merge takes the parameters already parsed.
- The `debugurl` redirect and `buildFullUrlWithParams` depend on the browser's `URL`, `URLSearchParams` and `location.replace`.
- Debug logging is console and DOM output only.
- Styling is presentation only: `applyConfig`, `createFireEffect`, pixel sizes, the counter text, the fire's animation and the 10 ms pulse-animation timeouts. Only "displayed", "opaque", "counter displayed" and the fire size are kept.
- The container's visibility at page load comes from the page's stylesheet, which is not part of this model. `Combo.Init` takes it as hidden.
- Timer durations are not modelled. Only the delay a decay step was armed with is recorded, and of the fade timeout only whether it is positive.
- Image loading follows the browser: a new image replaces the previous handlers, so only the latest load is awaited. Reloading the same URL is not modelled.
- Strings are sequences of Unicode scalar values, not UTF-16 code units. All the whitespace and punctuation the scan tests are single BMP characters, so the split and the strip are unaffected.
- Configuration numbers are Dafny integers and reals. NaN and non-numeric values from URL parameters are not modelled.
- `Catalog.Widest`: file widths are integers (no missing or NaN widths), and the sort is described by the element it leaves last, not carried out.
- `src/config.js` supplies only example constants (`ComboProps.DefaultConfig`).

## Findings

| source | as written | input that shows it | evidently intended | confidence | as-written member | corrected member |
|---|---|---|---|---|---|---|
| src/script.js:37 | `key in defaultConfig` is also true for names inherited from `Object.prototype` | URL parameter `toString=1` is copied into the configuration although the defaults do not declare it | only keys the defaults declare are merged (comment at src/script.js:35) | high, not executed | `Settings.MergeAsWrittenAcceptsInheritedName` | `Settings.MergeConfig` |
