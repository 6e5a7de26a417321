# Plyr facade and Vimeo adapter, modelled in Dafny

This project models the core of simple-media, a fork of the Plyr media player.
The core has two parts.

- **The player facade** (`class Plyr`, `src/js/plyr.js`). Its constructor runs a
  chain of setup checks that may bail out. Its property setters normalise their
  input before they touch the media element: `currentTime`, `volume`, `muted`,
  `speed`, `quality`, `loop` and `autoplay`. Its getters (`playing`, `paused`,
  `stopped`, `ended`, `duration`, `buffered`, `currentTrack`) are derived from
  that state. It also has the playback commands, `toggleControls`, and the
  `destroy` lifecycle step.
- **The Vimeo adapter** (`src/js/plugins/vimeo.js`). This part covers
  `parseId`, `test`, `assurePlaybackState` and `availableSpeed`. It also covers
  the faux media object that `ready` installs: property setters that become
  Vimeo SDK requests, getters that answer from closure variables, and the SDK
  event callbacks.

Files:

- `js_values.dfy`: loosely typed JavaScript values, and the coercions the
  setters use: `is.number`, `is.boolean`, `is.empty`, `Number(...)` and
  `Boolean(...)`.
- `events.dfy`: the event vocabulary the player emits.
- `negotiation.dfy`: clamping, the "first numeric candidate" fallback chain,
  and snapping to the closest option.
- `facade.dfy`: the setup-check chain as a function, the setter decisions as
  functions, and `Facade.Player`. `Facade.Player` is a class whose methods
  update the media and configuration fields and append to an event log and a
  call log.
- `vimeo_urls.dfy`: the two regular expressions of the adapter, written as the
  searches they perform.
- `vimeo.dfy`: the rest of the adapter.
  - `assurePlaybackState` as a pure function.
  - The seek setter's promise chain as a staged value.
  - `VimeoAdapter.Adapter`, a class. Its fields are the media's own fields and
    the closure variables. Each write logs an SDK request and records the
    continuation awaiting it under a request number in `pending`. Each
    confirmation, rejection, reply and SDK event is a method of its own, which
    the environment may call in any order, or never.

Each event the player emits is appended to a log, so "emitted exactly when X
changed" is a statement about the log. Facts the source reads from outside the
model are parameters: stored settings, the support probe, the SDK's answers,
and the facade's `ready` flag where the adapter consults it.

## Model

| member | source | states |
|---|---|---|
| JsValues.ToNumber | src/js/plyr.js:513-515 | `Number(v)` is a number or NaN. A number passes through unchanged. A string becomes a number exactly when it is empty or a decimal literal. |
| JsValues.NumberOfDecimal | src/js/plugins/vimeo.js:25 | `Number(...)` of the decimal notation of any natural number n is n itself. |
| Negotiation.Clamp | src/js/plyr.js:527-533 | The result lies in [lo, hi]. It equals the input inside the range and the nearer bound outside it. |
| Negotiation.FirstNumberIndex | src/js/plyr.js:690-695 | `find(is.number)`: gives the position of a numeric candidate, and no earlier candidate is numeric. |
| Negotiation.FirstNumber | src/js/plyr.js:690-695 | There is a result exactly when some candidate is a number. The result is one of the candidates. A numeric last link guarantees a result. |
| Negotiation.FirstNumberOfThree | src/js/plyr.js:517-525 | The setters' if-chain (input, else storage, else config) picks the same value as `find(is.number)` over the three candidates. |
| Negotiation.FirstNumberOfFour | src/js/plyr.js:690-695 | The same holds for the quality setter's four candidates. |
| Negotiation.ClosestIndex | src/js/plyr.js:697-700 | `closest`: the chosen option is at least as near as every option. Every earlier option is strictly farther, so the first one wins a tie. |
| Negotiation.Closest | src/js/plyr.js:697-700 | The snapped value is one of the options, and no option is nearer. |
| Facade.ProviderNamed | src/js/plyr.js:202-206 | A provider name is accepted exactly when it is one of html5, youtube and vimeo, and each of the three names denotes its own provider. |
| Facade.ReadFrameParams | src/js/plyr.js:177-192 | Reading a frame's URL parameters changes only autoplay, loop and playsinline. Autoplay and loop are switched on exactly when already on or when the URL gives them as `1` or `true`. Playsinline follows the URL for YouTube and is set for every other provider. |
| Facade.FrameConfigAsWritten | src/js/plyr.js:176 | As written, the guard tests `searchParams.length`, which a URL's search parameters do not have. So the configuration is the one a frame without parameters gives. |
| Facade.FrameConfig | src/js/plyr.js:176-192 | As evidently intended: a frame without parameters leaves the configuration as it was. A frame with parameters has them read, so a truthy `autoplay` or `loop` switches that option on. |
| Facade.FrameAutoplayIgnoredAsWritten | src/js/plyr.js:176-180 | A Vimeo frame whose URL says `autoplay=1` leaves autoplay off as written, while the intended reading switches it on. |
| Facade.Validate | src/js/plyr.js:118-249 | The bail-outs apply in source order: no element, already set up, disabled, no basic support, then invalid provider or unsupported tag, then no support for the type. Once those first checks pass, a video or audio tag is configured as HTML5 of that type, with its attributes read, exactly when the typed support probe allows it. A div naming a valid provider, by frame or attribute, is configured as video from that provider exactly when the probe allows it. Its frame's parameters are read as evidently intended (see Findings: as written they never are). Every other outcome is `NoSupport`. The checks only switch on autoplay, loop and muted, and set playsinline and crossorigin. |
| Facade.Player.constructor | src/js/plyr.js:118-302 | The player attaches exactly when the checks pass, with their provider, type, configuration and support. It calls `play()` when autoplay is configured and the media can play. The media reports itself unpaused only when the browser allows that start. `ready` stays false. |
| Facade.Player.MarkReady | src/js/plyr.js:282-285 | Building the UI sets `ready`, keeping the lifecycle invariant that a ready player is attached. |
| Facade.Player.AttachEmbedMedia | src/js/plugins/vimeo.js:136-186 | An embed provider's `ready` gives the media `play`, `pause` and `stop` functions, and after it the facade forwards those calls. Vimeo's puts its wrapper in place of the media and sets it paused at 0, so the player is stopped and not playing until a `play()`. |
| Facade.Player.OfferQualities | src/js/plyr.js:685 | The qualities the provider offers become the options the `quality` setter chooses from. |
| Facade.EffectiveDuration | src/js/plyr.js:493-502 | The `duration` getter is the faux duration when it is nonzero, else the media duration, else 0. It is 0 exactly when neither is a nonzero number. |
| Facade.BufferedFraction | src/js/plyr.js:465-481 | An embed's fraction is reported as is. For native ranges, the first range end divided by the duration, which lies in [0, 1] when the end is within the duration. Otherwise 0. |
| Facade.SeekTarget | src/js/plyr.js:439-450 | A positive number is kept, capped at the duration. Anything else seeks to 0. With a positive duration the target lies in [0, duration]. |
| Facade.ResolveVolume | src/js/plyr.js:508-533 | The written volume lies in [0, 1]. It is the first number among the coerced input, the stored volume and the configured volume, clamped. |
| Facade.VolumeWriteExamples | src/js/plyr.js:508-533 | Writing 1.5 gives 1, -1 gives 0, and the string "0.5" gives 0.5. |
| Facade.ResolveSpeed | src/js/plyr.js:636-662 | The candidate is the first number among input, storage and selection, clamped to [0.1, 2.0]. The write is accepted exactly when that value is an option. An accepted speed is an option and lies in [0.1, 2.0]. |
| Facade.ResolveQuality | src/js/plyr.js:683-705 | With no options there is no result. Otherwise the result is an option. A candidate that is an option is kept. Otherwise the nearest option is chosen. With no numeric candidate, the first option is chosen. |
| Facade.QualitySnapExample | src/js/plyr.js:697-705 | With options 240/480/720/1080, a request for 540 selects 480. |
| Facade.Player.Play | src/js/plyr.js:337-344 | `play()` is forwarded exactly when the media can play. When the browser allows playback, the media is no longer paused, so a ready player that has not ended is playing. |
| Facade.Player.Pause | src/js/plyr.js:349-355 | `pause()` is forwarded only while playing, and the media then reports itself paused. Afterwards a controllable player is not playing. |
| Facade.Player.TogglePlay | src/js/plyr.js:389-398 | Plays when the input is true and pauses when it is false. With no boolean input it plays exactly when not playing. The media's paused flag follows the call it made. |
| Facade.Player.SetCurrentTime | src/js/plyr.js:439-450 | The write is a no-op while the duration is 0. Otherwise only the media time changes, to the seek target, which lies in [0, duration]. |
| Facade.Player.Restart | src/js/plyr.js:415-417 | Seeks to 0 once a duration is known. |
| Facade.Player.Rewind | src/js/plyr.js:423-425 | Seeks back by the given step, or by the configured step. |
| Facade.Player.Forward | src/js/plyr.js:431-433 | Seeks ahead by the given step, or by the configured step. |
| Facade.Player.Stop | src/js/plyr.js:403-410 | A native player pauses (only while playing) and restarts; with a known duration it ends stopped exactly when it was paused, or was playing with controllable media. An embed whose media has a `stop` function is told to stop. Vimeo's faux `stop` then pauses through the facade, so a Vimeo player with its faux media is not playing afterwards. Its write of 0 leaves the reported time as it was. |
| Facade.Player.SetMuted | src/js/plyr.js:584-602 | Config and media get the same flag: a boolean input, else the stored flag, else the configured flag. |
| Facade.Player.SetVolume | src/js/plyr.js:508-546 | Afterwards media and config hold the same volume, in [0, 1]. The player is unmuted exactly when an explicit value was given, it was muted, and the new volume is positive. Nothing else changes. |
| Facade.Player.IncreaseVolume | src/js/plyr.js:559-562 | The new volume is the clamped sum of the step and the current volume (0 when muted), in config and media alike. Config and media are unmuted together exactly when they were muted and the result is positive. Nothing else changes. |
| Facade.Player.DecreaseVolume | src/js/plyr.js:568-571 | The same, subtracting the step. |
| Facade.Player.SetSpeed | src/js/plyr.js:636-669 | A rejected value changes nothing. An accepted value becomes both the selected speed and the playback rate, and it is an option. |
| Facade.Player.SetQuality | src/js/plyr.js:683-712 | With no options nothing changes. Otherwise `qualityrequested` is emitted exactly once, and then the selected quality, an option, is recorded in config and media. |
| Facade.Player.SetLoop | src/js/plyr.js:726-730 | Config and media get a boolean input, else the configured flag. |
| Facade.Player.SetAutoplay | src/js/plyr.js:825-828 | Config gets a boolean input, else the flag is unchanged. |
| Facade.Player.ToggleControls | src/js/plyr.js:938-962 | Only a player with UI support that is not audio toggles; otherwise it returns false. `undefined` flips the controls. Any other value shows them when truthy and hides them when falsy, so `null` hides. An event is emitted only on a change, and the result says whether the controls are shown. |
| Facade.Player.DestroyDone | src/js/plyr.js:1001-1050 | The embed is released. A full destroy also unbinds the listeners, emits `destroyed` and clears `ready`. A soft destroy changes neither. |
| Facade.Player.Destroy | src/js/plyr.js:996-1089 | Nothing happens unless the player is ready. Otherwise it stops as `stop()` does, then tears down per provider. HTML5 and YouTube finish at once; a soft destroy keeps `ready` and the listeners. Vimeo only asks the embed to unload after the stop. |
| Facade.StopEmbedWhilePlaying | src/js/plugins/vimeo.js:183-216 | Stopping a playing Vimeo player sends `stop` and then `pause`. The player ends paused and not playing, with its reported time unchanged, so it is not stopped unless the time was already 0. |
| Facade.ToggleTwiceResumes | src/js/plyr.js:389-398 | From playback, two argument-less `togglePlay()` calls make a `pause()` and then a `play()`, and the player is playing again. |
| Facade.DestroyTwice | src/js/plyr.js:996-999 | A full destroy of a native player, repeated, emits `destroyed` once; the second call is a no-op. |
| VimeoUrls.MarkerLength | src/js/plugins/vimeo.js:29 | The group `(vimeo.com\/\|video\/)` matches 10 or 6 characters starting with `v`, or nothing. The dot may be any character but a line terminator. |
| VimeoUrls.LastMatch | src/js/plugins/vimeo.js:29 | The greedy leading `.*` chooses the largest position at which the expression matches. No larger position matches, and there is no result only when none does. |
| VimeoUrls.DigitRun | src/js/plugins/vimeo.js:29 | `(\d+)` takes the whole run of digits at the position. |
| VimeoUrls.ParseId | src/js/plugins/vimeo.js:20-31 | An empty input gives no ID. A numeric string is returned unchanged. Otherwise the result is the maximal digit run after the last marker, or the input unchanged when the expression does not match. |
| VimeoUrls.NumericSourceNeverMatches | src/js/plugins/vimeo.js:25-30 | The expression never matches a numeric string, so the numeric short cut never changes the answer. |
| VimeoUrls.ParseIdOfPlayerUrl | src/js/plugins/vimeo.js:20-31 | `https://player.vimeo.com/video/<digits>` gives those digits. |
| VimeoUrls.ParseIdOfPageUrl | src/js/plugins/vimeo.js:20-31 | `https://vimeo.com/<digits>` gives those digits. |
| VimeoUrls.ParseIdTakesLastMarker | src/js/plugins/vimeo.js:29-30 | When a URL holds two markers, the ID after the last one wins. |
| VimeoUrls.PlayerPrefixEnd | src/js/plugins/vimeo.js:63 | Where `^https?:\/\/player.vimeo.com\/video\/` ends, which is just after a `/`. |
| VimeoUrls.PlayerPrefixOfPlayerUrl | src/js/plugins/vimeo.js:63 | The player URL prefix is recognised whatever follows it. |
| VimeoUrls.TestCharacterization | src/js/plugins/vimeo.js:62-64 | `VimeoUrls.Test`, the model of `test`, passes exactly when the prefix matches and is followed by a letter, digit, underscore or slash. The `\d{0,9}` part does not restrict anything. |
| VimeoUrls.TestNeedsHttp | src/js/plugins/vimeo.js:62-64 | Only strings starting with `http://` or `https://` pass. |
| VimeoUrls.TestIgnoresIdDigits | src/js/plugins/vimeo.js:62-64 | A player URL whose ID starts with a letter passes. |
| VimeoAdapter.Assure | src/js/plugins/vimeo.js:34-42 | Afterwards `paused == !play`, and `hasPlayed` is set when playing and never cleared. At most one event is emitted, exactly when `paused` flipped, and it is `play` or `pause` accordingly. |
| VimeoAdapter.AssureTwice | src/js/plugins/vimeo.js:34-42 | Two calls with the same argument emit at most one event. |
| VimeoAdapter.AssureAlternates | src/js/plugins/vimeo.js:34-42 | Over any run of calls, the `play`/`pause` events alternate, starting with the one that leaves the initial state. Their parity gives the final state, there are never more events than calls, and `hasPlayed` holds exactly when it did before or some call asked to play. |
| VimeoAdapter.SeekPlan | src/js/plugins/vimeo.js:206-212 | When the pause must be restored, a seek starts by muting and ends by restoring the prior volume. It always includes the seek itself. |
| VimeoAdapter.SeekStart | src/js/plugins/vimeo.js:198-206 | The write mutes at once only when it must restore the pause (paused and never played). |
| VimeoAdapter.SeekNext | src/js/plugins/vimeo.js:206-215 | Each resolved link makes exactly the next request of the plan. The chain ends only once the whole plan has been requested. |
| VimeoAdapter.SeekFollowsPlan | src/js/plugins/vimeo.js:206-215 | Whatever the SDK answers or rejects, the requests of a seek are a prefix of its plan, so the volume is never restored before the seek and the pause. |
| VimeoAdapter.SeekCompletes | src/js/plugins/vimeo.js:206-215 | When every link resolves, a seek makes every request of its plan. |
| VimeoAdapter.SeekWhilePausedBeforePlay | src/js/plugins/vimeo.js:195-215 | A seek on a paused, never-played session requests `setVolume(0)`, `setCurrentTime(t)`, `pause()`, then `setVolume(v)` with the prior volume. |
| VimeoAdapter.ParseIntOfNumber | src/js/plugins/vimeo.js:396 | `parseInt(x, 10)` of a plain decimal truncates toward zero. |
| VimeoAdapter.FullyLoadedRange | src/js/plugins/vimeo.js:396-398 | `canplaythrough` is due exactly when the reported fraction lies in [1, 2). |
| VimeoAdapter.MutedToggle | src/js/plugins/vimeo.js:260 | A `muted` write asks to mute exactly when the input is `true`. A non-boolean input counts as false. |
| VimeoAdapter.InitialLoopAsWritten | src/js/plugins/vimeo.js:270 | As written, the `loop` getter starts out holding the configuration's `loop` object. |
| VimeoAdapter.InitialLoopReadsTrue | src/js/plugins/vimeo.js:270-274 | With looping configured off, the initial `loop` value is not `false` and reads as true. |
| VimeoAdapter.InitialLoop | src/js/plugins/vimeo.js:270 | Corrected initial value: a boolean that is true exactly when `loop.active` is. |
| VimeoAdapter.AvailableSpeedsAccepted | src/js/plugins/vimeo.js:46-48 | Every speed the SDK offers is accepted unchanged by the facade's `speed` setter when the options are those speeds. |
| VimeoAdapter.Adapter.Ended | src/js/plugins/vimeo.js:303-307 | `ended` compares the reported time with the facade's duration. Before any duration is known it is true exactly at time 0. |
| VimeoAdapter.Adapter.constructor | src/js/plugins/vimeo.js:164-337 | The adapter starts paused at 0, never played. Its getters are seeded from the configuration, with the corrected loop value. It makes the initial queries for URL, autopause, title, current time and duration, in that order, and awaits each one. |
| VimeoAdapter.Adapter.AssurePlayback | src/js/plugins/vimeo.js:34-42 | The adapter's flags and event log follow `Assure`. |
| VimeoAdapter.Adapter.Play | src/js/plugins/vimeo.js:173-176 | Playback state is assured to play, and the SDK is asked to play. |
| VimeoAdapter.Adapter.Pause | src/js/plugins/vimeo.js:178-181 | Playback state is assured to pause, and the SDK is asked to pause. |
| VimeoAdapter.Adapter.Stop | src/js/plugins/vimeo.js:183-186 | Pauses only while the facade reports playing. Then seeks to 0 only once a duration is known. |
| VimeoAdapter.Adapter.WriteCurrentTime | src/js/plugins/vimeo.js:194-216 | Sets `seeking`, emits `seeking` once, and starts the chain, muting first when it must restore the pause. The reported current time is untouched. |
| VimeoAdapter.Adapter.ResolveSeekLink | src/js/plugins/vimeo.js:206-215 | A resolved link makes the next request of the chain and awaits it, or ends the chain. |
| VimeoAdapter.Adapter.WritePlaybackRate | src/js/plugins/vimeo.js:225-236 | Only the SDK request is made. The reported speed is untouched until confirmation. |
| VimeoAdapter.Adapter.ConfirmRate | src/js/plugins/vimeo.js:228-231 | On confirmation the reported speed becomes the written rate, and `ratechange` is emitted. |
| VimeoAdapter.Adapter.Reject | src/js/plugins/vimeo.js:232-235 | A rejected rate change leaves normal speed as the only option. Any other rejection changes nothing but ends what awaited it. |
| VimeoAdapter.Adapter.WriteVolume | src/js/plugins/vimeo.js:245-250 | Only the SDK request is made. |
| VimeoAdapter.Adapter.ConfirmVolume | src/js/plugins/vimeo.js:246-249 | On confirmation the reported volume becomes the written one, and `volumechange` is emitted. |
| VimeoAdapter.Adapter.WriteMuted | src/js/plugins/vimeo.js:259-266 | Asks the SDK for volume 0 when muting, or the configured volume when unmuting. |
| VimeoAdapter.Adapter.ConfirmMuted | src/js/plugins/vimeo.js:262-265 | On confirmation the reported flag becomes the toggle, and `volumechange` is emitted. |
| VimeoAdapter.Adapter.WriteLoop | src/js/plugins/vimeo.js:275-281 | Asks the SDK for the toggle. |
| VimeoAdapter.Adapter.ConfirmLoop | src/js/plugins/vimeo.js:278-280 | On confirmation the reported loop becomes the boolean toggle. No event is emitted. |
| VimeoAdapter.Adapter.ReplySource | src/js/plugins/vimeo.js:286-294 | `currentSrc` becomes the reported URL. |
| VimeoAdapter.Adapter.ReplyAutopause | src/js/plugins/vimeo.js:317-319 | The configured autopause becomes the state the SDK reports. |
| VimeoAdapter.Adapter.ReplyTitle | src/js/plugins/vimeo.js:322-325 | The configured title becomes the reported title. |
| VimeoAdapter.Adapter.ReplyTime | src/js/plugins/vimeo.js:328-331 | The reported time is recorded, and `timeupdate` is emitted. |
| VimeoAdapter.Adapter.ReplyDuration | src/js/plugins/vimeo.js:334-337 | The initial answer always records the duration and emits `durationchange`. A later answer does so only when the value differs. |
| VimeoAdapter.Adapter.OnLoaded | src/js/plugins/vimeo.js:350-357 | On `loaded`, asks whether the video is paused. |
| VimeoAdapter.Adapter.ReplyPaused | src/js/plugins/vimeo.js:352-357 | The playback state follows the answer, and `playing` is emitted when the video plays. |
| VimeoAdapter.Adapter.OnPlay | src/js/plugins/vimeo.js:376-379 | On `play`, playback state is assured to play, then `playing` is emitted. |
| VimeoAdapter.Adapter.OnPause | src/js/plugins/vimeo.js:381-383 | On `pause`, playback state is assured to pause. |
| VimeoAdapter.Adapter.OnTimeUpdate | src/js/plugins/vimeo.js:385-389 | Clears `seeking`, records the time, and emits `timeupdate`. |
| VimeoAdapter.Adapter.OnProgress | src/js/plugins/vimeo.js:391-408 | Records the fraction and emits `progress`, plus `canplaythrough` when it is fully loaded. Then asks for the duration again. |
| VimeoAdapter.Adapter.OnSeeked | src/js/plugins/vimeo.js:410-413 | Clears `seeking` and emits `seeked`. |
| VimeoAdapter.Adapter.OnEnded | src/js/plugins/vimeo.js:415-418 | Sets `paused` and emits `ended`, leaving `hasPlayed` alone. |
| VimeoAdapter.Adapter.OnError | src/js/plugins/vimeo.js:420-423 | Records the error and emits `error`. |
| VimeoAdapter.Adapter.OnBufferStart | src/js/plugins/vimeo.js:368-370 | Emits `waiting`. |
| VimeoAdapter.Adapter.OnBufferEnd | src/js/plugins/vimeo.js:372-374 | Emits `playing`. |
| VimeoAdapter.SeekBeforeFirstPlay | src/js/plugins/vimeo.js:194-216 | On the adapter itself: a seek while paused and never played, with every link resolved, asks the SDK to mute, seek, pause and restore the prior volume, in that order. The reported current time does not move, and `seeking` is set. The adapter stays paused and unplayed, keeps its reported volume, and records exactly one `seeking` event. |

The facade's getters (`Facade.Player.Playing`, `Paused`, `Ended`, `Stopped`,
`Duration`, `Buffered`, `CurrentTrack`, `IsHtml5`, `IsAudio`) are functions
whose bodies are the source's formulas. The contracts above are stated in terms
of them.

## Left out

- DOM work is not modelled. That covers element cloning and wrapping, iframe and
  wrapper creation, class toggling, the poster fetch, the aspect ratio, the
  `tabindex` fix, and restoring native controls.
- Loading the Vimeo SDK, the Vimeo API `fetch`, and constructing the SDK player
  are not modelled. The SDK is present only as the requests the adapter makes
  and the answers and events it receives.
- Timers are not modelled: the `setTimeout` that builds the UI, the 200 ms
  grace and garbage-collection timers in `destroy`, and the loading and
  buffering timers.
- On the Vimeo path of `destroy`, `done` can run twice: once after `unload`
  resolves and once from the timer. `Facade.Player.DestroyDone` is a separate
  step that may be taken twice, and nothing claims a single `destroyed` event
  there.
- Modules the core imports but which are not part of this model: captions,
  controls, ui, storage, support, fullscreen, ads, listeners, media setup, and
  the utilities. Storage reads and the support probe are parameters. `closest`
  is specified by contract: the nearest option, with the first one winning a
  tie.
- Captions and text tracks are not modelled: `getTextTracks`, `cuechange`,
  `disableTextTrack`, and the `currentTrack` setter. The `currentTrack` getter
  is modelled.
- The video-size queries, URL building (`format`, `buildUrlParams`), the frame
  parameters, `premium`, `referrerPolicy`, picture-in-picture, AirPlay and the
  poster are not modelled.
- The static `VimeoProvider.destroy` is covered only as the `unload` request the
  facade's `destroy` makes.
- `demo-laerdal/src/js/demo.js` is not modelled: it is demo configuration
  without logic.
- Numbers are `real`: there is no floating-point rounding, no infinity, and NaN
  appears only as a separate value.
- JsValues.ToNumber: a string is read only as an optional sign, digits and an
  optional fraction. Surrounding white space, exponents, hexadecimal and
  `Infinity` are not read.
- VimeoAdapter.ParseIntOfNumber: assumes plain decimal notation. A fraction
  below 1e-6, which JavaScript prints in exponent form, would parse
  differently.
- VimeoAdapter.Adapter: the facade and the adapter are two separate objects,
  and no proof composes them. On the facade side an embed's media is a plain
  record. The facade's setters write it, and `play` and `pause` set its paused
  flag at once, as the faux functions' `assurePlaybackState` does. The SDK
  requests those functions make are not followed on this side. On the adapter side the facade's
  values are parameters: the volume after clamping, the configured volume and
  loop flag, and `ready` for `stop`.
- VimeoAdapter.Adapter: getters report a written value only after the SDK
  confirms it. The code does that, and there is no guard against a late
  confirmation overwriting a newer one.
- VimeoAdapter.Adapter: the error detail, the SDK's play and pause promises,
  and the order in which `qualityrequested` listeners run are not modelled.
- VimeoAdapter.Adapter: a seek that needs no muting first waits on an already settled promise. The model still lets `Reject` end that first link, which the source cannot do.
- VimeoAdapter.Adapter: the `getDuration` answer is recorded as given; a NaN
  answer is not modelled.
- Facade.Player.constructor: on a failed setup the model leaves provider and
  type unset and keeps the configuration as given. The source may already have
  assigned them before it bails out. Setters
  on such a player, which would throw in the source, are not guarded.
- Facade.Player.Stop: a YouTube embed's `stop` function belongs to the
  YouTube plugin, which is not part of this model. The model records the call
  and leaves the media as it was. The same holds for the stop that
  `Facade.Player.Destroy` makes on a YouTube player. Vimeo's faux `stop` also
  writes 0 to `currentTime`. That write belongs to the adapter's seek chain
  (`VimeoAdapter.Adapter.WriteCurrentTime`), and the reported time moves only
  when the SDK sends `timeupdate`. On the facade side the model keeps the time
  as it was and does not record the seek.
- Facade.Player.AttachEmbedMedia: a YouTube embed's `ready` belongs to the
  YouTube plugin, which is not part of this model. For YouTube the model only
  makes the media controllable. For Vimeo, the fields of the wrapper other than
  `paused` and `currentTime` are kept from the element it replaces.
- Facade.Player.Play: a `play()` at the end of playback does not seek back to
  the start, and a `play()` the browser refuses leaves the media as it was. The
  media's own timing of later events is not modelled.
- Facade.Player.constructor: `ready` is set by the UI builder, which is not part
  of this model. `Facade.Player.MarkReady` stands for it.

## Findings

| source | as written | input that shows it | evidently intended | confidence | as-written member | corrected member |
|---|---|---|---|---|---|---|
| src/js/plugins/vimeo.js:270 | `let { loop } = player.config` binds the whole `config.loop` object to the closure behind the `loop` getter. | A Vimeo player configured with `loop: { active: false }`: before any loop write is confirmed, `player.loop` (which is `Boolean(media.loop)`) is true. | The getter starts at the configured `loop.active` flag. | high, not executed | VimeoAdapter.InitialLoopReadsTrue | VimeoAdapter.InitialLoop |
| src/js/plyr.js:176 | The frame's URL parameters are read only when `url.searchParams.length` is truthy. A URL's `searchParams` has `size` but no `length`, so the test is always `undefined`. | An embed `<div>` wrapping an `<iframe>` whose URL ends in `?autoplay=1&loop=1`: neither autoplay nor loop is switched on, and playsinline is not set. | The parameters are read whenever the URL has any, for example by testing `searchParams.size`. | high, not executed | Facade.FrameAutoplayIgnoredAsWritten | Facade.FrameConfig |
