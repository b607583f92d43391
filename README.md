# yt-enhancer content script, modelled in Dafny

yt-enhancer is a browser extension that adds features to YouTube's watch page. This project models the decision logic inside its content script, with the DOM, the video player, timers and extension storage replaced by small models:

- **The player** is its current time and duration, plus a log of the calls made on it.
- **Extension storage** is a map from keys to JSON values.
- **Window messages** are a sequence of messages.
- **Listeners and cleanup functions** are tokens whose calls are logged.

Each asynchronous operation is modelled as running to completion.

| file | module | models |
|---|---|---|
| `wrappers.dfy` | `Wrappers` | `Option`, with `GetOr` as JavaScript's `??` |
| `digits.dfy` | `Digits` | decimal digit strings and their values, shared by array-index keys and `parseFloat` |
| `json.dfy` | `JsonData` | JSON values, JavaScript truthiness, property lookup (first match) |
| `controller.dfy` | `FeatureController` | `syncFeatures` and the single `activeFeature` slot (`controller/index.ts`) |
| `main.dfy` | `ContentScript` | the feature registry, startup, the once-only dropdown, the location-change observer (`main.ts`, `features/index.ts`) |
| `bridge.dfy` | `StorageBridge` | the page-side message handler over the store (`injected-bridge.ts`) and the content-side `get`/`set` requests that wait for the matching reply (`bridge.ts`) |
| `settings.dfy` | `Settings` | the dropdown's config record, how it is stored, how a stored value is read back, and the window events |
| `dropdown.dfy` | `SettingsDropdown` | the `Dropdown` class: config, open/closed state, toggles, quality select, badge, cleanup list (`components/dropdown.ts`) |
| `viewcount.dfy` | `ViewCount` | `viewCountParser.parse` and `extractSuffix` (`features/watch/index.ts`) |
| `watch.dfy` | `WatchFeature` | the watch page's module state, saved playback position, live-status classification, field selection, event handlers, config loading and cleanup (`features/watch/index.ts`) |
| `extract.dfy` | `Extract` | `findKeyDeep` (`scripts/extract.js`) |

### Noteworthy behaviour

The model keeps these behaviours of the code as written:

- **"miliar" reads as millions.** The multiplier tests run in a fixed order, and the "m" test comes before the "miliar" test. An Indonesian "3 miliar" therefore counts 3 000 000 (`ViewCount.MiliarNeverBillion`, `ViewCount.ParseMiliar`).
- **Decimal commas are dropped.** Commas are removed before the number is read, so "1,2 rb" counts 12 000 (`ViewCount.ParseDecimalComma`).
- **`remove` does not exist.** In `timeTracking.save` and `timeTracking.restore`, the edge-window branch calls `storageBridge.remove`, which `bridge.ts` never defines. The call throws and the surrounding `catch` swallows it, so `lastSavedTime` is left unchanged and nothing is removed. The model records these attempts in `removeFailures`.
- **The content-side bridge has only `get` and `set`.** `bridge.ts` defines these two requests. The page-side handler answers five request types.
- **Keys containing a dot make `path` ambiguous.** `findKeyDeep` joins keys with ".", so a key such as "a.b" gives the same path as the keys "a" and "b". The path can be split back into its keys only when no key contains a dot (`Extract.SplitJoin`).
- **A failed `init` leaves a stale record.** When a feature's `init` throws, the slot keeps the record whose cleanup has just run, so the next sync calls that cleanup again (`FeatureController.FailedInitCleansTwice`).

## Model

| member | source | states |
|---|---|---|
| FeatureController.FirstMatch | src/content-scripts/youtube/controller/index.ts:9 | the chosen feature is the first in list order whose `match` holds; with no match, none does |
| FeatureController.SyncStep | src/content-scripts/youtube/controller/index.ts:7-30 | the old cleanup, if any, is the first call and the only cleanup called; if it throws, nothing else happens and the slot keeps its record. With no match, the slot empties and no `init` runs. After a match, the slot holds that feature and what its `init` returned or resolved with; if `init` throws, the slot keeps the old record |
| FeatureController.SyncStepRunsInit | src/content-scripts/youtube/controller/index.ts:12-29 | when the old cleanup does not throw and a feature matches, that feature's `init` is the last call, and no `init` is called when the feature has none; the sync fails in `init` exactly when the old cleanup does not throw and the first match's `init` throws |
| FeatureController.Controller.Sync | src/content-scripts/youtube/controller/index.ts:7-30 | the slot and the call log become exactly what `SyncStep` describes |
| FeatureController.Controller.constructor | src/content-scripts/youtube/controller/index.ts:5 | the slot starts empty |
| FeatureController.AtMostOneOutstanding | src/content-scripts/youtube/controller/index.ts:12-29 | over any run of syncs whose features and cleanups do not throw, the cleanups handed out and not yet called are exactly the one in the slot, and that one does not throw |
| FeatureController.SyncOutstanding | src/content-scripts/youtube/controller/index.ts:12-29 | one such sync keeps that invariant and completes |
| FeatureController.RematchRestarts | src/content-scripts/youtube/controller/index.ts:12-29 | whenever a feature whose `init` does not throw is the first match, the held cleanup (if any, and not throwing) runs and then that `init` runs; the slot holds the feature with its new cleanup |
| FeatureController.RunSnoc | src/content-scripts/youtube/controller/index.ts:7-30 | one more sync at the end of a run of syncs: the slot ends as that sync leaves it, and its calls follow the run's calls |
| FeatureController.FailedInitCleansTwice | src/content-scripts/youtube/controller/index.ts:12-24 | when the next `init` throws, two syncs on the same path call the same old cleanup twice |
| ContentScript.WatchSelectedOnWatchPage | src/content-scripts/youtube/features/index.ts:5 | with the registered features, the watch feature is chosen exactly on "/watch" and nothing is chosen elsewhere |
| ContentScript.WatchRestartsOnNewVideo | src/content-scripts/youtube/main.ts:33-37 | a sync on "/watch" while the watch feature is active calls its cleanup, then its `init` again, and keeps the watch feature active |
| ContentScript.SyncedPathsAppend | src/content-scripts/youtube/main.ts:33-37 | the paths synced for a longer series of observations are those synced for the earlier part followed by those of the new observation, judged against the last location seen |
| ContentScript.ObserveOne | src/content-scripts/youtube/main.ts:33-37 | one more observation keeps the slot and the call log equal to a replay of syncs over the synced paths: one more sync when the location changed, none otherwise |
| ContentScript.SteadyLocationNoSync | src/content-scripts/youtube/main.ts:33 | mutations that leave the pathname and `v` as recorded trigger no sync |
| ContentScript.EveryChangeSyncs | src/content-scripts/youtube/main.ts:33-37 | when each observed location differs from the one before it, each one triggers a sync for its path, in order |
| ContentScript.Page.constructor | src/content-scripts/youtube/main.ts:23-27 | at startup there is one sync from an empty slot and one dropdown, loaded from storage; the recorded pair is the current location |
| ContentScript.Page.InitDropdown | src/content-scripts/youtube/main.ts:8-12 | a Dropdown is constructed and initialised only when none exists; afterwards exactly one has ever been created, and a repeat call changes nothing |
| ContentScript.Page.OnMutation | src/content-scripts/youtube/main.ts:29-43 | syncs exactly when the pathname or `v` differs from the recorded pair, then records the new pair; re-injects exactly when `#yt-enhancer-dropdown` is absent and a dropdown exists. Its invariant keeps the slot and the controller's call log equal to a replay of `SyncStep` over the paths of every observed location change since startup |
| StorageBridge.Host.constructor | src/content-scripts/youtube/bridge/injected-bridge.ts:4-5 | the handler starts over the given store with no replies |
| StorageBridge.Host.Handle | src/content-scripts/youtube/bridge/injected-bridge.ts:5-69 | messages from another source change nothing and get no reply. GET replies with the stored value. SET stores the value, then replies. REMOVE deletes only its key, then replies. CLEAR empties the store, then replies. GET_ALL replies with the whole store, unchanged. Any other type changes nothing |
| StorageBridge.AwaitReply | src/content-scripts/youtube/bridge/bridge.ts:7-18 | the listener stops at the first message from the window with the expected type and key; every earlier message is ignored; with no such message it stays pending |
| StorageBridge.Get | src/content-scripts/youtube/bridge/bridge.ts:3-20 | posts exactly one GET for the key; it resolves exactly when a matching GET reply arrives, with the value of the first one |
| StorageBridge.Set | src/content-scripts/youtube/bridge/bridge.ts:22-39 | posts exactly one SET carrying the value; it resolves exactly when a matching SET reply arrives |
| StorageBridge.BridgeGet | src/content-scripts/youtube/bridge/bridge.ts:3-20 | answered by the handler, `get` yields the stored value, leaves the store unchanged and adds one reply |
| StorageBridge.BridgeSet | src/content-scripts/youtube/bridge/bridge.ts:22-39 | answered by the handler, `set` resolves with the value stored under the key and every other key unchanged |
| StorageBridge.SetThenGet | src/content-scripts/youtube/bridge/injected-bridge.ts:22-33 | a `get` after `set(key, v)` yields `v` |
| Extract.IndexKey | scripts/extract.js:19 | array indices become non-empty keys, of two or more characters from 10 on |
| Extract.IndexKeyDecimal | scripts/extract.js:19 | the key of index `n` is all decimal digits, has no leading zero, and reads back as `n` |
| Extract.IndexKeyInjective | scripts/extract.js:19 | distinct array indices give distinct keys |
| Extract.Keys | scripts/extract.js:19 | an object has one key per property and an array one per item; other values have none |
| Extract.KeysAreNames | scripts/extract.js:19-25 | the keys are an object's field names in order, and an array's indices as `IndexKey`; the child under each key is that field's or item's value |
| Extract.SplitJoin | scripts/extract.js:24 | splitting a result's dotted path at "." gives back its keys when no key contains a dot |
| Extract.DeepMatches | scripts/extract.js:14-32 | every result's path extends the current path and ends with the target key; a value that is not an object or array yields no result |
| Extract.FindKeyDeep | scripts/extract.js:14-33 | the loop's result list equals `DeepMatches` |
| Extract.DeepMatchesSound | scripts/extract.js:20-27 | following each result's path from the root reaches that result's value |
| Extract.DeepMatchesComplete | scripts/extract.js:19-30 | every path that ends in the target key and leads to a value is reported with that value |
| Extract.DeepMatchesCount | scripts/extract.js:19-30 | the number of results equals the number of occurrences of the key as a property name anywhere in the tree |
| Extract.DeepMatchesPreOrder | scripts/extract.js:19-30 | a match is listed before every match found inside its value |
| Extract.DeepMatchesKeysInOrder | scripts/extract.js:19-30 | results found under a sibling key that comes earlier in key order are listed before those under a later one |
| Settings.ParseToggleKey | src/content-scripts/youtube/components/dropdown.ts:309-310 | exactly the three toggle names are recognised, each as the key of that name |
| Settings.DropdownConfig.WithToggle | src/content-scripts/youtube/components/dropdown.ts:321 | sets the given toggle and leaves the other toggles and the quality unchanged |
| Settings.DecodeEncode | src/content-scripts/youtube/components/dropdown.ts:361-363 | reading a saved config back yields every field, with its saved value |
| Settings.MergeDecodeEncode | src/content-scripts/youtube/components/dropdown.ts:55-57 | a saved config merged over the defaults gives back that config |
| Settings.MergeNonObject | src/content-scripts/youtube/components/dropdown.ts:57 | a stored value that is not an object leaves the defaults |
| SettingsDropdown.FindOption | src/content-scripts/youtube/components/dropdown.ts:179-181 | the first option with the given value, or none when no option has it |
| SettingsDropdown.BadgeLabelIsOptionLabel | src/content-scripts/youtube/components/dropdown.ts:179-185 | the badge shows the label of the option whose value is the preferred quality, and "1080p" for any other value |
| SettingsDropdown.Loaded | src/content-scripts/youtube/components/dropdown.ts:53-62 | a stored value that is absent or falsy leaves the config unchanged |
| SettingsDropdown.LoadedAfterSave | src/content-scripts/youtube/components/dropdown.ts:53-58 | loading after a save yields exactly the saved config, whatever the config was before |
| SettingsDropdown.Dropdown.constructor | src/content-scripts/youtube/components/dropdown.ts:39-45 | a new dropdown holds the defaults, is closed, has no elements and no cleanups |
| SettingsDropdown.Dropdown.Init | src/content-scripts/youtube/components/dropdown.ts:47-51 | loads the stored config, builds the elements with switches and badge matching it, and registers the four listener cleanups in order; the storage is unchanged and exactly one GET reply is posted |
| SettingsDropdown.Dropdown.LoadConfig | src/content-scripts/youtube/components/dropdown.ts:53-62 | the config becomes `Loaded` of the stored value after one GET |
| SettingsDropdown.Dropdown.CreateUI | src/content-scripts/youtube/components/dropdown.ts:64-98 | the elements exist, there is one switch per toggle showing its config value, and the badge shows `BadgeLabel` |
| SettingsDropdown.Dropdown.AttachListeners | src/content-scripts/youtube/components/dropdown.ts:218-223 | adds the button, menu, quality and document cleanups, in that order |
| SettingsDropdown.Dropdown.SaveConfig | src/content-scripts/youtube/components/dropdown.ts:361-367 | the encoded config is stored under "dropdown_config" |
| SettingsDropdown.Dropdown.HandleToggle | src/content-scripts/youtube/components/dropdown.ts:308-325 | for a toggle key with a switch, that setting becomes the negation of the switch, which equals the config value; the other settings are unchanged; the result is saved with exactly one SET reply posted, and announced. An absent or unknown `data-id` changes nothing and posts nothing |
| SettingsDropdown.Dropdown.HandleQualityChange | src/content-scripts/youtube/components/dropdown.ts:264-280 | the preferred quality always becomes the selected value; the badge changes only for a listed option; the config is saved with exactly one SET reply posted, and a quality event is sent |
| SettingsDropdown.Dropdown.HandleRefreshClick | src/content-scripts/youtube/components/dropdown.ts:117-134 | one refresh event is sent |
| SettingsDropdown.Dropdown.OpenMenu | src/content-scripts/youtube/components/dropdown.ts:343-350 | opens only when the menu and the button exist |
| SettingsDropdown.Dropdown.CloseMenu | src/content-scripts/youtube/components/dropdown.ts:352-359 | closes only when the menu and the button exist |
| SettingsDropdown.Dropdown.ToggleMenu | src/content-scripts/youtube/components/dropdown.ts:335-341 | flips the open state when the menu and the button exist, and otherwise changes nothing |
| SettingsDropdown.Dropdown.OnDocumentClick | src/content-scripts/youtube/components/dropdown.ts:289-291 | after an outside click the menu is closed; it is never opened |
| SettingsDropdown.Dropdown.OnKeydown | src/content-scripts/youtube/components/dropdown.ts:293-297 | Escape closes an open menu; any other key changes nothing; no key opens it |
| SettingsDropdown.Dropdown.Destroy | src/content-scripts/youtube/components/dropdown.ts:419-436 | every cleanup runs once, in order; the list is emptied, the elements are dropped and the menu is closed |
| SettingsDropdown.Dropdown.GetConfig | src/content-scripts/youtube/components/dropdown.ts:438-440 | returns a value equal to the current config |
| ViewCount.Lower | src/content-scripts/youtube/features/watch/index.ts:111 | same length; no 'A'..'Z' remains; each upper-case ASCII letter becomes the lower-case letter at the same place in the alphabet; every other character is unchanged |
| ViewCount.ContainsAt | src/content-scripts/youtube/features/watch/index.ts:113 | `includes` holds exactly when the text occurs at some index |
| ViewCount.MiliarNeverBillion | src/content-scripts/youtube/features/watch/index.ts:111-117 | a text containing "miliar" gets 1000 or 1 000 000. The multiplier is 10^9 exactly when the text contains "b" and none of "k", "rb", "m", "jt" |
| ViewCount.FirstNumberRun | src/content-scripts/youtube/features/watch/index.ts:119-120 | none exactly when there is no digit, dot or comma; otherwise the leftmost maximal run of them |
| ViewCount.FirstNumberRunIs | src/content-scripts/youtube/features/watch/index.ts:119 | any leftmost maximal run is the one found |
| ViewCount.StripCommas | src/content-scripts/youtube/features/watch/index.ts:122 | the result holds every non-comma character of the input and no comma, and a comma-free text is unchanged |
| ViewCount.StripCommasAppend | src/content-scripts/youtube/features/watch/index.ts:122 | stripping commas from two texts in a row is stripping each and concatenating, so the order of the kept characters is preserved |
| ViewCount.StripCommasChar | src/content-scripts/youtube/features/watch/index.ts:122 | a comma is deleted and any other single character is kept |
| ViewCount.ParseFloatPrefix | src/content-scripts/youtube/features/watch/index.ts:122 | the result is NaN exactly when the text starts with neither a digit nor a dot followed by a digit |
| ViewCount.ParseFloatDigits | src/content-scripts/youtube/features/watch/index.ts:122 | a plain digit string reads as its decimal value |
| ViewCount.ParseLeadingDot | src/content-scripts/youtube/features/watch/index.ts:122 | "." followed by digits reads as those digits over 10 to their count |
| Digits.DigitsValueAppend | src/content-scripts/youtube/features/watch/index.ts:122 | the value of two digit strings written one after the other is the first value shifted by the second's length plus the second value, so the mantissa of `a.b` is `a` times 10^|b| plus `b` |
| ViewCount.DecimalEndsNumber | src/content-scripts/youtube/features/watch/index.ts:122 | digits `a`, a dot and digits `b` (possibly none), then the end of the text or a non-digit, read as the mantissa `a` followed by `b` over 10 to the length of `b` |
| ViewCount.DecimalAtEnd | src/content-scripts/youtube/features/watch/index.ts:122 | a run `a.b` with nothing after it, as in "4.1M", reads as `a.b` |
| ViewCount.SecondDotEndsNumber | src/content-scripts/youtube/features/watch/index.ts:122 | `a.b.rest` reads as `a.b` |
| ViewCount.Scaled | src/content-scripts/youtube/features/watch/index.ts:124 | the result is the floor of the decimal times the multiplier |
| ViewCount.Parse | src/content-scripts/youtube/features/watch/index.ts:108-127 | "" gives count 0 and formatted "0"; any other text is kept as formatted; the count is never negative, and is 0 when there is no number run |
| ViewCount.ParseCount | src/content-scripts/youtube/features/watch/index.ts:119-126 | when the first number run is `s[i..j]`, the count is the floor of that run (commas removed, read by `parseFloat`) times the multiplier, and 0 when it reads as NaN |
| ViewCount.NoDigitNoCount | src/content-scripts/youtube/features/watch/index.ts:119-124 | a text without a digit counts 0 |
| ViewCount.Trim | src/content-scripts/youtube/features/watch/index.ts:150 | the result is a slice of the text with only white space around it, and it neither starts nor ends with white space |
| ViewCount.NumberPartEnd | src/content-scripts/youtube/features/watch/index.ts:148-149 | the leading run of digits, dots, commas and white space ends at the first other character |
| ViewCount.SuffixText | src/content-scripts/youtube/features/watch/index.ts:150-151 | empty exactly when the trimmed rest is empty; otherwise one space followed by the trimmed rest |
| ViewCount.ExtractSuffix | src/content-scripts/youtube/features/watch/index.ts:128-155 | "" gives (0, "", 1, 0). Otherwise the number is `parse`'s count, the divisor is the multiplier, there is one decimal place exactly when the divisor is not 1, and the suffix is the text after the leading number part |
| ViewCount.ParseMiliar | src/content-scripts/youtube/features/watch/index.ts:111-124 | "3 miliar" counts 3 000 000 |
| ViewCount.ParseMillions | src/content-scripts/youtube/features/watch/index.ts:108-127 | "4.1M views" counts 4 100 000 in the model's exact decimals |
| ViewCount.ParseDecimalComma | src/content-scripts/youtube/features/watch/index.ts:119-124 | "1,2 rb" counts 12 000 |
| WatchFeature.TimeKeyInjective | src/content-scripts/youtube/features/watch/index.ts:167 | distinct video ids have distinct storage keys |
| WatchFeature.SaveDecision | src/content-scripts/youtube/features/watch/index.ts:159-179 | nothing happens when destroyed, live, or when the player or id is missing. A write goes to `video_time_<id>` and stores the current time. That time is at least 30 s, at least 30 s before the end, and at least 3 s from the last saved time. Whenever these all hold and time and duration are non-zero, it writes. With the guard passed, a zero time or duration does nothing. A non-zero time in the edge window reaches exactly the failing `remove` on `video_time_<id>`. A time outside the window but under 3 s from the last save is too soon and does nothing |
| WatchFeature.RestoreDecision | src/content-scripts/youtube/features/watch/index.ts:180-196 | seeks only to a saved number at least 30 s from both ends, and does seek to any such non-zero number when the duration is non-zero |
| WatchFeature.SaveThenRestore | src/content-scripts/youtube/features/watch/index.ts:174-194 | a position that `save` writes is the one `restore` seeks to for the same video and duration |
| WatchFeature.SaveSettles | src/content-scripts/youtube/features/watch/index.ts:174-177 | saving again at the position just written does not write |
| WatchFeature.Watch.Save | src/content-scripts/youtube/features/watch/index.ts:159-179 | the store, replies and `lastSavedTime` change exactly as `SaveDecision` says; an edge-window time logs one failed `remove` and changes nothing else |
| WatchFeature.Watch.Restore | src/content-scripts/youtube/features/watch/index.ts:180-196 | guarded out, nothing is asked or called. Otherwise there is one GET for the key, a seek exactly as `RestoreDecision` says, and one failed `remove` for an edge-window value. The store is never changed |
| WatchFeature.Classify | src/content-scripts/youtube/features/watch/index.ts:553-562 | state 3 exactly when live now; 2 when not live and not upcoming; 4 when not live and upcoming; 1 exactly when there is no live flag |
| WatchFeature.Watch.SetState | src/content-scripts/youtube/features/watch/index.ts:547-563 | the state becomes the classification; `isLiveNow` is set when live now and never cleared; nothing else changes |
| WatchFeature.JoinRuns | src/content-scripts/youtube/features/watch/index.ts:593 | no runs join to "" and a single run to its own text |
| WatchFeature.JoinRunsAppend | src/content-scripts/youtube/features/watch/index.ts:593 | the texts of several runs are concatenated in order with no separator |
| WatchFeature.FindPrimaryInfo | src/content-scripts/youtube/features/watch/index.ts:565-577 | the first entry with a primary-info renderer, or none when no entry has one |
| WatchFeature.GetViewCount | src/content-scripts/youtube/features/watch/index.ts:579-595 | for the first entry `k` that has a primary-info renderer, the joined runs of its view count in states 3 and 4 and its simple text otherwise; none when no entry has one |
| WatchFeature.GetDateText | src/content-scripts/youtube/features/watch/index.ts:597-621 | in state 4, the offline-slate runs joined; otherwise, for the first entry `k` that has a primary-info renderer, its date in state 3 and its relative date in any other state; none when no entry has one |
| WatchFeature.FindSkipsLeading | src/content-scripts/youtube/features/watch/index.ts:565-577 | entries without the renderer in front shift the found index by their number |
| WatchFeature.ViewCountSkipsLeading | src/content-scripts/youtube/features/watch/index.ts:579-595 | entries before the first primary-info entry do not change the view count |
| WatchFeature.DateTextSkipsLeading | src/content-scripts/youtube/features/watch/index.ts:597-621 | entries before the first primary-info entry do not change the date text |
| WatchFeature.UpcomingDateIgnoresContents | src/content-scripts/youtube/features/watch/index.ts:601-607 | in state 4 the date text does not depend on the page's contents |
| WatchFeature.CaptionStep | src/content-scripts/youtube/features/watch/index.ts:763-772 | the caption state becomes the value. A subtitle call is made exactly when the value differs from the old state: on when turning on, toggle when turning off |
| WatchFeature.CaptionCallsAlternate | src/content-scripts/youtube/features/watch/index.ts:763-772 | over any series of events the subtitle calls alternate between on and off, the first one changes the initial state, the last matches the final state, and the final state is the last value sent |
| WatchFeature.Watch.SetQuality | src/content-scripts/youtube/features/watch/index.ts:695-701 | the quality call is made exactly when not destroyed and the quality service is on |
| WatchFeature.Watch.OnSetting | src/content-scripts/youtube/features/watch/index.ts:749-774 | destroyed, without a player, or with an unknown setting: nothing changes. `autoLoop` sets the flag and the loop. `qualityService` sets the flag and, when turned on with a quality, applies it. `autoCaption` sets the flag and follows `CaptionStep` |
| WatchFeature.Watch.OnQuality | src/content-scripts/youtube/features/watch/index.ts:775-784 | unless destroyed, the quality becomes the new one and is applied when there is a player and the service is on |
| WatchFeature.LoadedConfig | src/content-scripts/youtube/features/watch/index.ts:713-725 | a stored value that is absent or falsy leaves the config unchanged |
| WatchFeature.Watch.LoadConfig | src/content-scripts/youtube/features/watch/index.ts:713-725 | one GET of "dropdown_config", and the config becomes `LoadedConfig` of its answer |
| WatchFeature.LoadsDropdownSave | src/content-scripts/youtube/features/watch/index.ts:716-721 | the watch page reads back exactly the settings the dropdown saved, with the preferred quality as its quality |
| WatchFeature.AgreesWithDropdown | src/content-scripts/youtube/features/watch/index.ts:716-721 | starting from the defaults, the watch page and the dropdown read any stored value into the same settings |
| WatchFeature.Watch.constructor | src/content-scripts/youtube/features/watch/index.ts:44-71 | the state, config and cleanup records start at their initial values |
| WatchFeature.Watch.ResetState | src/content-scripts/youtube/features/watch/index.ts:73-83 | the state equals the initial state |
| WatchFeature.Watch.RunCleanup | src/content-scripts/youtube/features/watch/index.ts:85-105 | stops time tracking and resets the count-up if they are set. Calls every handler exactly once, in order, whether or not it throws. Then empties the handler list and ends in the initial state, with `isDestroyed` false |
| WatchFeature.RanAll | src/content-scripts/youtube/features/watch/index.ts:94-98 | one call per handler, in list order |

## Left out

- **Host-page UI.** This covers the DOM construction and injection: the dropdown's `create*` and `inject*` methods, SVG markup, `ui.*`, and the refresh button's animation. Element presence, switch state and badge text are modelled as fields; injection is only counted.
- **Count-up animations.** `animation.*` uses floating-point formatting and third-party counters.
- **Network plumbing.** `networkIntercept` is a global `fetch` proxy.
- **Left-out parts of the watch feature.** This covers `videoData.fetch`, `parse` and `fetchAndLog`, `handleVideo`, `playerFeatures.applyAll`, `loop` and `caption`, `timeTracking.setup`, `eventHandlers.refresh`, and `watchFeature.init`. They wait for the player, fetch pages and register listeners on timers. These decisions in them are not modelled:
  - `init` runs `runCleanup` when the video id changed and `resetState` when destroyed (`features/watch/index.ts` lines 803-817).
  - `refresh` runs `runCleanup` and stops when the current video id differs from the saved one (lines 730-745).
  - `fetchAndLog` sets up time tracking and restores only with a player, not live, not an update and not destroyed (lines 664-673).
  - `caption` turns subtitles on and sets `isCaptionActive` when `autoCaption` is on (lines 703-708).
- **`getDVREnabled`.** It is a single comparison whose only reader is the left-out UI.
- **Missing required page-data fields.** Page data is taken to have the fields its declared types mark as required. `getViewCount` and `getDateText` use plain `.` on those links (`videoViewCountRenderer`, `liveStreamabilityRenderer`, `liveStreamOfflineSlateRenderer`, `mainText`), and a missing one would throw a `TypeError`. In the model, `None` stands only for a missing optional link.
- **The livechat feature.** It is not registered in `features/index.ts`, and it is only timers and DOM clicks.
- **The background script and the build scripts.**
- **The command-line part of `scripts/extract.js`.** This covers the arguments, file reading, `JSON.parse` and `process.exit`.
- **Polling in `initDropdown`.** Its 100 ms polling for `#end` before the first `inject` is a timer. `ContentScript.Page.OnMutation` counts only the observer's re-injections.
- **Concurrency.** Overlapping `syncFeatures` calls and interleaved promises are not modelled: every asynchronous call runs to completion before the next event. A rejected sync in the observer is modelled as an unhandled rejection that does not stop the callback.
- **Exceptions from the player.** Player calls are assumed not to throw, so the watch handlers' `try`/`catch` blocks are not exercised.
- **Stopping time tracking and resetting the count-up in `runCleanup`.** These run outside a `try` and are assumed not to throw.
- **Storage failures.** Storage requests are assumed to succeed, so the `catch` blocks around `get` and `set` in the dropdown and the watch page are not exercised. The one failure modelled is the call to the missing `remove`, which the `catch` blocks in `timeTracking.save` and `restore` absorb.
- **`SettingsDropdown.Dropdown.Destroy`: cleanups cannot throw.** Each only removes a listener, so the logging `catch` is not exercised.
- **`Settings.Decode`: wrong-typed fields are treated as absent.** A stored field that is `null` or of the wrong type is treated as missing. JavaScript's object spread and `??` would copy a wrong-typed value, and spread would also copy a `null`.
- **`WatchFeature.LoadedConfig`: same treatment as `Settings.Decode`.**
- **`WatchFeature.RestoreDecision`: only stored numbers are seek positions.** A truthy stored value that is not a number is treated as no saved position. JavaScript would compare it with `<` after conversion.
- **`ViewCount.Lower`: ASCII only.** It lower-cases ASCII letters only. Other letters, including ones whose lower-case form is one of the tested ASCII letters, are left unchanged.
- **`ViewCount.ParseFloatPrefix`: exact decimals.** It reads an exact decimal, whereas `parseFloat` rounds to an IEEE-754 double. So the count can differ even for short decimals: `Math.floor` of the double product can be one below the exact value. In doubles 4.1 × 10^6 is 4099999.9999999995, so JavaScript counts "4.1M views" as 4 099 999 and "4.1B" as 4 099 999 999, where the model gives 4 100 000 (`ViewCount.ParseMillions`) and 4 100 000 000. Counts beyond 2^53 can differ too, and NaN is modelled only as "no number".
- **`WatchFeature.SaveDecision`: exact reals.** Times are exact reals, so a NaN time or duration from the player is not modelled.
- **`StorageBridge.Host.Handle`: keyless requests are ignored.** A GET, SET or REMOVE without a key gets no reply and changes nothing. It also does not model a SET that stores `undefined`. A SET whose value is a `Snapshot`, a payload that only GET_ALL replies carry, is answered but stores nothing, where JavaScript would store the object.
- **`SettingsDropdown.Dropdown.HandleToggle`: the three toggle names only.** It recognises only the three toggle names. The code's `id in this.config` would also accept "preferredQuality" or inherited property names, but no toggle item carries such a `data-id`.
- **`Extract.Keys`: order of integer-like keys.** Object keys keep their stored order. JavaScript enumerates integer-like keys of an object first.
