# Video player with playlist and frame analysis — Dafny model

The application is a single-page React video player. The user drops local
video files, and the files become a playlist of object URLs. The player plays
the current entry. A control bar offers:

- play/pause, seek, volume and mute;
- fullscreen and a speed menu;
- next/previous buttons;
- a playlist panel;
- an "AI Inspect" button. It sends the current frame to a remote model and
  shows the model's description in an overlay.

Keyboard shortcuts duplicate most of the controls. The controls hide after a
period without pointer movement while a video is playing.

The model has seven modules, one per core file plus two shared ones:

- `Types` — the records of `types.ts`: `VideoState`, `PlayerState`,
  `GeminiStatus`, `AnalysisResult`. It also holds the `Option`/`Result`
  wrappers. An object URL is an opaque handle `ObjectUrl(id)`.
- `Strings` — the JavaScript string built-ins the components use, stated over
  `seq<char>`: `split` with one separator character, `||` on a string,
  `toString` on whole numbers, `padStart` and an ASCII `toLowerCase`.
- `App` — the playlist and the current index (`App.tsx`):
  - as transition functions over `Nav`;
  - as the class `AppState`, which also counts created object URLs and
    records revoked ones;
  - as the class `Shell`, which wires an `AppState` to a `Player.Session`.
- `Player` — the player component (`components/Player.tsx`). The class
  `Session` has one method per handler. Each method is specified by a
  transition function over a `Snapshot` of all its fields, and keeps the
  invariant `Valid`.
  - Effects are modelled where they change state. The entry effect is
    `Started`. The cleanup of the mouse-move effect, which cancels a pending
    hide, is `Settle`.
  - The keydown listener's captured values are modelled too.
- `PlayerControls` — the control bar (`components/PlayerControls.tsx`): the
  clock text `FormatTime`, what the bar shows (`Render`), and its speed menu.
- `PlaylistSidebar` — the panel (`components/PlaylistSidebar.tsx`): its rows,
  the media-subtype badge, the highlight and the header counter.
- `GeminiService` — `analyzeFrame` (`services/geminiService.ts`).
  - The remote model is a function parameter `client`, from `Request` to
    `Reply`.
  - The environment's API key is a parameter; an empty key stands for a
    missing one.

Modelling choices:

- Times, volume and playback rate are `real`, so arithmetic is exact.
- The 3-second hide timer is a `HideTimer` value. It is either absent or
  pending, and it fires when the caller calls `HideTimerFired`.
- Navigation requests from the player to the playlist (`onNext`,
  `onPrevious`) come back from the handlers as a `NavRequest`.
  `Shell.Follow` carries them out.

Three behaviours of the code are worth knowing before reading the model:

- **The code does not revoke URLs on intake.** Choosing new files replaces
  the playlist without revoking the old entries' URLs; only closing the player
  revokes them. `App.AppState.HandleFilesSelected` and `App.Shell.FilesSelected`
  keep `released` unchanged, and navigation revokes nothing either.
- **Only the button keeps analyses one at a time.** The analyze button is
  disabled while the status is ANALYZING; nothing else prevents a second
  analysis. An entry change sets the status back to IDLE while an analysis
  is still outstanding. That outcome then lands on the new entry, whose
  overlay shows it. `Player.LateOutcomeAfterEntryChange` states this.
- **Two different error texts.** On failure the overlay shows the player's
  own message ("... check API Key."), not the service's message ("... check
  API key or quota.").

## Model

| member | source | states |
|---|---|---|
| Strings.Split | components/PlaylistSidebar.tsx:75 | `split` with one separator: at least one field, no field contains the separator, and joining the fields with it gives back the input |
| Strings.SplitJoin | services/geminiService.ts:21 | splitting joined separator-free fields returns exactly those fields (split and join are inverse) |
| Strings.FieldsAfterFirstSeparator | services/geminiService.ts:21 | the fields of `a + sep + t` are `a` followed by the fields of `t` when `a` has no separator |
| Strings.SecondField | services/geminiService.ts:21 | `split(sep)[1]` is the text between the first separator and the next one (or the end) |
| Strings.NoSecondField | components/PlaylistSidebar.tsx:75 | `split(sep)[1]` is undefined exactly when the string holds no separator |
| Strings.OrElse | services/geminiService.ts:40 | `v \|\| fallback` gives `v` when it is present and non-empty, and the fallback otherwise |
| Strings.FirstIndex | services/geminiService.ts:21 | the first occurrence of a character: it is there, and not before |
| Strings.Digits | components/PlayerControls.tsx:28 | `toString` of a whole number: all digits, no leading zero unless the number is 0, and it reads back as the number |
| Strings.DigitsLength | components/PlayerControls.tsx:28 | one digit exactly below 10, two exactly from 10 to 99 |
| Strings.PadStart | components/PlayerControls.tsx:28 | `padStart`: the length is the width or the input's length, whichever is larger; the input is a suffix; the rest is filler |
| Strings.ZeroPadded | components/PlayerControls.tsx:28 | zero padding keeps a numeral all digits and keeps its value |
| Strings.LeadingZeros | components/PlayerControls.tsx:28 | any number of leading zeros leaves a numeral's value unchanged |
| Strings.LowerChar | components/Player.tsx:81 | ASCII capitals are lowered by 32 code points, every other character is kept (non-ASCII capitals included, see Left out), and no ASCII capital remains |
| Strings.Lower | components/Player.tsx:76 | `toLowerCase` character by character, with the length kept |
| PlayerControls.FormatTimeFields | components/PlayerControls.tsx:24-29 | the clock text is a minutes field, ':' and a two-digit seconds field; the seconds are below 60; 60·minutes + seconds equals the whole seconds of the input; the minutes field is padded to two digits but never cut, so 100+ minutes appear in full |
| PlayerControls.WholeMinutes | components/PlayerControls.tsx:26-27 | floor of `seconds/60` and floor of the remainder lie in range and recompose the whole seconds |
| PlayerControls.ClockFields | components/PlayerControls.tsx:28 | the two padded fields of the clock read back as the given minutes and seconds |
| PlayerControls.PaddedField | components/PlayerControls.tsx:28 | one padded field is all digits, reads back as its number, and is exactly two characters for numbers below 100 |
| PlayerControls.FormatTimeIsClock | components/PlayerControls.tsx:25-28 | the clock text of any time is the clock of its whole minutes and the seconds left over, the zero case included |
| PlayerControls.QuotientOf | components/PlayerControls.tsx:26 | whole minutes are the quotient of whole seconds by 60 |
| PlayerControls.FormatTimeZero | components/PlayerControls.tsx:25 | a zero time shows "00:00" |
| PlayerControls.FormatTime | components/PlayerControls.tsx:24-29 | the clock text of a non-negative time has at least five characters, with ':' before the last two |
| PlayerControls.Clock | components/PlayerControls.tsx:28 | the joined clock text has at least five characters, and ':' before the last two when the seconds are below 100 |
| PlayerControls.Render | components/PlayerControls.tsx:77-194 | analyze enabled exactly when not ANALYZING, with its label; the slider at 0 while muted and at the volume otherwise; the muted icon exactly when muted or at volume 0; previous/next enabled by `hasPrevious`/`hasNext`; the clock shows position and duration |
| PlayerControls.SeekMax | components/PlayerControls.tsx:63 | the seek slider's maximum is the duration, or 100 while the duration is 0 |
| PlayerControls.MenuItems | components/PlayerControls.tsx:143-145 | the open menu lists the six rates in order; the closed menu lists nothing |
| PlayerControls.ToggleSpeedMenu | components/PlayerControls.tsx:137 | the speed button flips the menu's open flag |
| PlayerControls.ToggledTimesParity | components/PlayerControls.tsx:137-143 | after k clicks the menu is open iff it started open and k is even, or closed and k is odd; two more clicks show the same entries |
| PlayerControls.ChooseRateCloses | components/PlayerControls.tsx:145-151 | whatever clicks came before, choosing entry i passes the i-th fixed rate and closes the menu, and the next click opens the full list again |
| PlayerControls.ChooseRate | components/PlayerControls.tsx:145-151 | choosing an entry passes that entry's rate, which is one of the fixed rates, and closes the menu |
| PlayerControls.RatesAreTheFixedSet | components/PlayerControls.tsx:50 | the menu's rates are exactly {0.25, 0.5, 1, 1.25, 1.5, 2}, pairwise distinct |
| PlayerControls.MarkedEntries | components/PlayerControls.tsx:155 | the checked entries are exactly those equal to the current rate |
| PlayerControls.OneMarkedEntry | components/PlayerControls.tsx:155 | a rate from the menu checks exactly one entry |
| PlaylistSidebar.BadgeIsSubtype | components/PlaylistSidebar.tsx:75 | the badge of "major/sub…" is the subtype `sub`, or "EXT" when the subtype is empty |
| PlaylistSidebar.BadgeWithoutSlash | components/PlaylistSidebar.tsx:75 | a type without '/' (including the empty type) gets "EXT" |
| PlaylistSidebar.BadgeShape | components/PlaylistSidebar.tsx:75 | a badge is never empty; it is "EXT" or a '/'-free part of a type that contains '/' |
| PlaylistSidebar.Badge | components/PlaylistSidebar.tsx:75 | `type.split('/')[1] \|\| 'EXT'` is never empty |
| PlaylistSidebar.Rows | components/PlaylistSidebar.tsx:55-75 | one row per entry, in order, with the entry's name and badge; a row is highlighted iff its position is the current index |
| PlaylistSidebar.PanelRows | components/PlaylistSidebar.tsx:55-75 | one row per playlist entry, with the entry's name, highlighted exactly at the current index |
| PlaylistSidebar.ExactlyCurrentHighlighted | components/PlaylistSidebar.tsx:58-67 | exactly the current entry's row is highlighted, and none when the index is past the end |
| PlaylistSidebar.Counter | components/PlaylistSidebar.tsx:41 | the counter has the position numeral, without a leading zero, then '/' |
| PlaylistSidebar.CounterReadsBack | components/PlaylistSidebar.tsx:41 | the header counter reads back as the 1-based position, '/', and the playlist length |
| GeminiService.PayloadWithoutComma | services/geminiService.ts:21 | input without a comma is sent unchanged |
| GeminiService.PayloadIsSecondSegment | services/geminiService.ts:20-21 | with a comma, the text up to the next comma is sent, or the whole input when that text is empty |
| GeminiService.PngDataUrl | services/geminiService.ts:20-21 | a PNG data URL sends exactly its base64 body |
| GeminiService.Payload | services/geminiService.ts:21 | the sent payload is never empty for a non-empty input, and is either the whole input or a comma-free segment of it |
| GeminiService.RequestFor | services/geminiService.ts:18-38 | the request names "gemini-2.5-flash", "image/png", the fixed instruction, and the stripped payload |
| GeminiService.AnalyzeFrame | services/geminiService.ts:3-44 | a missing key fails before the model is asked; every failure has the one message "...API key or quota."; a missing or empty reply becomes "No analysis available."; otherwise the reply text; a success is never empty |
| Player.InitialValid | components/Player.tsx:34-50 | the mounted state (playing flag on, volume 1, rate 1, idle analysis) satisfies the session invariant |
| Player.Settle | components/Player.tsx:160-169 | the pending hide is cancelled exactly when `isPlaying` or `showPlaylist` changed; nothing else changes |
| Player.Started | components/Player.tsx:59-70 | after an entry change the analysis is cleared and IDLE, the player shows playing, the element plays at the kept rate; the panel and in-flight count are kept |
| Player.PlayRejected | components/Player.tsx:65-67 | a refused start shows stopped and pauses the element, leaving the analysis and the volume |
| Player.StartedResets | components/Player.tsx:59-70 | an entry change clears the analysis and status, shows playing, and plays the element at the kept rate; volume, mute and times are kept |
| Player.RejectedStartStops | components/Player.tsx:65-67 | a refused start takes the playing flag down and pauses, with the analysis still cleared |
| Player.PlayPauseClicked | components/Player.tsx:184-193 | a click flips the playing flag, leaves the element paused exactly when not playing, cancels the pending hide, and leaves the analysis |
| Player.VolumeSet | components/Player.tsx:202-207 | the slider's volume on state and element, muted iff it is 0, the element's `muted` and the playing flag untouched |
| Player.MuteToggled | components/Player.tsx:209-215 | the mute flag flips, the element's `muted` matches it, and the volume is unchanged on both |
| Player.Seeked | components/Player.tsx:195-200 | the slider's time becomes the position on element and state; duration and playback are untouched |
| Player.TimeUpdated | components/Player.tsx:172-176 | the state's position becomes the element's; the element and the duration are untouched |
| Player.MetadataLoaded | components/Player.tsx:178-182 | the state's duration becomes the element's; the element and the position are untouched |
| Player.RateChosen | components/Player.tsx:229-234 | the chosen rate on element and state; playback and volume untouched |
| Player.FullscreenToggled | components/Player.tsx:217-227 | fullscreen is shown on iff the document had no fullscreen element; nothing else changes |
| Player.FullscreenToggledTwice | components/Player.tsx:217-227 | while the flag agrees with the document, a press flips fullscreen and keeps the invariant, and a second press restores the session |
| Player.Ended | components/Player.tsx:298-304 | the element is paused; next is requested iff there is a next entry, and otherwise the player shows stopped |
| Player.CommandFor | components/Player.tsx:81-131 | the shortcut of `e.key.toLowerCase()`: next, previous and mute exactly for 'n', 'p' and 'm' in either case; CommandIgnoresCase, NavigationKeys and PlayPauseKeyFollowsElement state the rest of its meaning |
| Player.IsTextEntry | components/Player.tsx:76 | the INPUT/TEXTAREA guard, in any letter case; only tag names of five or eight characters are text fields; TextEntryIgnored states its effect |
| Player.VolumeSetStoresVolume | components/Player.tsx:202-207 | the slider stores the volume on element and state; muted iff the volume is 0; the element's `muted` is untouched |
| Player.MuteToggledTwice | components/Player.tsx:209-215 | mute flips the flag, never the volume, and twice restores the state |
| Player.ZeroVolumeShowsMuted | components/Player.tsx:202-207 | setting volume 0 shows the muted icon and the slider at 0 |
| Player.UnmuteRestoresVolume | components/Player.tsx:209-215 | unmuting shows the earlier volume on the slider again, and clears the muted icon when that volume is not 0 |
| Player.EndedAdvancesOrStops | components/Player.tsx:298-304 | at the end, the playlist is asked to advance iff there is a next entry; otherwise the player shows as stopped |
| Player.CommandIgnoresCase | components/Player.tsx:81 | a key and its lower-cased form are the same shortcut |
| Player.ShiftedLetters | components/Player.tsx:81-129 | examples of CommandIgnoresCase: "N", "P", "K" and "ArrowUp" are the shortcuts next, previous, play/pause and volume up |
| Player.TextEntryIgnored | components/Player.tsx:76 | a key aimed at an input or textarea changes nothing and requests nothing |
| Player.CommandEffect | components/Player.tsx:81-131 | a shortcut leaves the panel, the hide timer, the controls' visibility and the analysis alone, and a navigation request changes nothing else |
| Player.KeyPressed | components/Player.tsx:74-139 | a key in a text field changes nothing; any other key shows the controls; no key touches the analysis or the panel; a navigation request leaves state and element unchanged |
| Player.StepForward | components/Player.tsx:95 | forward seek adds 5 s but does not pass the duration |
| Player.StepBackward | components/Player.tsx:99 | back seek subtracts 5 s but does not go below 0 |
| Player.VolumeUp | components/Player.tsx:104 | volume up adds 0.1, capped at 1 |
| Player.VolumeDown | components/Player.tsx:112 | volume down subtracts 0.1, floored at 0 |
| Player.KeyPressedValid | components/Player.tsx:74-138 | every key keeps the session invariant, and any key not aimed at a text field shows the controls |
| Player.CommandEffectValid | components/Player.tsx:81-131 | each shortcut keeps the session invariant |
| Player.SeekKeysStayInRange | components/Player.tsx:93-100 | the seek keys keep the position within [0, duration], leave the duration and the displayed state, and request nothing |
| Player.VolumeKeysClamp | components/Player.tsx:101-116 | the volume keys keep the volume in [0, 1], set muted iff the new volume is 0, and move the volume up or down |
| Player.NavigationKeys | components/Player.tsx:125-130 | next or previous is requested iff the key is 'n'/'p', it is not aimed at a text field, and there is somewhere to go |
| Player.PlayPauseKeyFollowsElement | components/Player.tsx:82-92 | space and 'k' toggle the element's paused state, and the playing flag follows the element |
| Player.DepsOf | components/Player.tsx:143 | the keydown effect's dependencies: the navigation flags and callbacks, `showPlaylist` and `isPlaying`, without `isMuted` |
| Player.MutingKeepsDeps | components/Player.tsx:121-143 | muting leaves the dependencies unchanged, so it registers no new listener |
| Player.Rerendered | components/Player.tsx:74-143 | after a render the listener carries the current dependencies; it is re-registered with the current mute flag only when they changed, and is otherwise the old listener |
| Player.KeyPressedAsWritten | components/Player.tsx:74-143 | as written: 'm' outside a text field sets state and element muted to the negation of the flag the listener captured and requests nothing; every other key is `KeyPressed` |
| Player.StaleMuteKey | components/Player.tsx:121-143 | as written: from an unmuted player, two 'm' presses through the registered listener leave both the state and the element muted; muting re-registers no listener |
| Player.AsWrittenAgreesWhenFresh | components/Player.tsx:74-143 | a listener that captured the current mute flag handles every key exactly as `KeyPressed`, so the stale capture is the only difference |
| Player.MuteKeyTwiceRestores | components/Player.tsx:121-124 | corrected: 'm' flips the mute flag, and a second press restores it on state and element |
| Player.MouseShowsControls | components/Player.tsx:146-160 | pointer movement shows the controls; a hide is pending iff playing with the playlist closed; playback is untouched |
| Player.MouseThenTimer | components/Player.tsx:154-158 | the controls hide after movement iff the player was playing with the playlist closed |
| Player.MouseMoved | components/Player.tsx:146-160 | the controls show; a hide is pending iff playing with the panel closed; playback and panel are untouched |
| Player.HideFired | components/Player.tsx:136-158 | the timer is gone; the controls hide iff the timer was armed to hide, and otherwise keep their visibility; playback and panel untouched |
| Player.PanelCancelsHide | components/Player.tsx:338 | toggling the panel flips it and cancels any pending hide |
| Player.PlaylistToggled | components/Player.tsx:338 | the panel flips and any pending hide is cancelled; playback and analysis untouched |
| Player.PlaylistClosed | components/Player.tsx:314 | the panel is closed; a pending hide is cancelled if it was open, and closing a closed panel changes nothing |
| Player.AnalysisDismissed | components/Player.tsx:309 | the overlay's result is cleared; the status, outstanding count and playback are kept |
| Player.DismissLeavesAnalysisRunning | components/Player.tsx:309 | dismissing keeps the invariant, a second dismissal changes nothing, and an outstanding analysis still fills the overlay afterwards |
| Player.CaptureAndAnalyze | components/Player.tsx:243-253 | a failed capture is a failure; otherwise the outcome is the service's outcome on the frame |
| Player.OverlayAlwaysHasText | components/Player.tsx:253-266 | after the outcome the overlay always has non-empty text; ERROR iff the capture or the service failed, then with the player's fixed text; a missing key is always ERROR |
| Player.AnalyzeButtonGuardsBegin | components/PlayerControls.tsx:165 | the analyze button is enabled exactly when a new analysis may begin, and disabled only while an analysis is outstanding |
| Player.AnalysisBegun | components/Player.tsx:236-241 | ANALYZING with one more outcome outstanding, the element paused and shown stopped, the earlier result kept |
| Player.AnalysisFinished | components/Player.tsx:243-267 | one outcome fewer outstanding; a result stamped with the element's time; ERROR iff the outcome failed and SUCCESS iff it succeeded; playback untouched |
| Player.AnalysisLifecycle | components/Player.tsx:236-267 | beginning pauses, shows ANALYZING and disables the button; the outcome gives SUCCESS with its text or ERROR with the fixed text, at the element's time, and enables the button |
| Player.LateOutcomeAfterEntryChange | components/Player.tsx:59-62 | an entry change during an analysis resets to IDLE with the overlay empty, but the late outcome still fills the overlay, and a second analysis can begin meanwhile |
| Player.Session.constructor | components/Player.tsx:34-50 | a new session is the initial state and satisfies the invariant |
| Player.Session.EntryChanged | components/Player.tsx:59-70 | the new state is `Started` of the old one, and the invariant holds |
| Player.Session.StartRejected | components/Player.tsx:65-67 | the new state is `PlayRejected` of the old one |
| Player.PlayPauseClickedTwice | components/Player.tsx:184-193 | a click flips the playing flag, sets the element to match and cancels a pending hide; two clicks restore a consistent player |
| Player.SeekSliderInRange | components/PlayerControls.tsx:60-64 | the seek slider's value lies in [0, max] whenever the position is within the duration, or within 100 while the duration is 0 |
| Player.SeekThenTimeUpdate | components/Player.tsx:172-200 | a seek to a value in the slider's range, followed by a time update, leaves the position at that value and within the range |
| Player.Session.HandlePlayPause | components/Player.tsx:184-193 | pause or play the element by the playing flag, then flip the flag |
| Player.Session.HandleSeek | components/Player.tsx:195-200 | the slider's time on element and state |
| Player.Session.HandleTimeUpdate | components/Player.tsx:172-176 | the element's position copied into the state |
| Player.Session.HandleLoadedMetadata | components/Player.tsx:178-182 | the element's duration copied into the state |
| Player.Session.HandleVolumeChange | components/Player.tsx:202-207 | the new state is `VolumeSet` of the old one |
| Player.Session.HandleToggleMute | components/Player.tsx:209-215 | the new state is `MuteToggled` of the old one |
| Player.Session.HandleToggleFullscreen | components/Player.tsx:217-227 | fullscreen shown on iff the document had no fullscreen element |
| Player.Session.HandlePlaybackRateChange | components/Player.tsx:229-234 | the chosen rate on element and state, and it stays one of the menu's rates |
| Player.Session.HandleEnded | components/Player.tsx:298-304 | state and navigation request are `Ended` of the old state |
| Player.Session.HandleKeyDown | components/Player.tsx:74-139 | state and request are `KeyPressed` of the old state, and the invariant holds |
| Player.Session.RunShortcut | components/Player.tsx:81-131 | state and request are `CommandEffect` of the old state, and the invariant holds |
| Player.Session.HandleMouseMove | components/Player.tsx:146-160 | the new state is `MouseMoved` of the old one |
| Player.Session.HideTimerFired | components/Player.tsx:136-138 | the new state is `HideFired` of the old one |
| Player.Session.TogglePlaylist | components/Player.tsx:338 | the new state is `PlaylistToggled` of the old one |
| Player.Session.ClosePlaylist | components/Player.tsx:314 | the panel closes; a pending hide is cancelled if it was open |
| Player.Session.DismissAnalysis | components/Player.tsx:309 | the overlay's result is cleared, and nothing else changes |
| Player.Session.BeginAnalyze | components/Player.tsx:236-241 | the new state is `AnalysisBegun` of the old one |
| Player.Session.FinishAnalyze | components/Player.tsx:243-267 | the new state is `AnalysisFinished` with the capture-and-service outcome |
| App.CurrentVideo | App.tsx:44 | there is a current entry iff the index is inside the playlist, and it is the entry at the index |
| App.PlayerShownIffNonEmpty | App.tsx:44-55 | the player is shown exactly while the playlist is non-empty |
| App.TransportButtons | App.tsx:54-55 | next is enabled except on the last entry; previous is enabled except on the first |
| App.HasNext | App.tsx:54 | next is enabled iff another entry follows the current one, which needs at least two entries |
| App.HasPrevious | App.tsx:55 | previous is enabled only past the first entry, and in range only with at least two entries |
| App.Next | App.tsx:26-30 | next keeps the playlist and either changes nothing or moves one entry forward inside the list |
| App.Previous | App.tsx:32-36 | previous keeps the playlist and either changes nothing or moves one entry back |
| App.Select | App.tsx:38-42 | select keeps the playlist and either changes nothing or lands on the given index inside the list |
| App.Entries | App.tsx:11-15 | one entry per file, in order, with the file's name and type and a fresh URL |
| App.Intake | App.tsx:10-18 | intake has one entry per file and starts at index 0 |
| App.Back | App.tsx:20-24 | back leaves an empty playlist at index 0 |
| App.TransitionsKeepInRange | App.tsx:10-42 | every transition keeps the index in range; next, previous and select keep the playlist |
| App.NextIffHasNext | App.tsx:26-30 | next moves by one iff `hasNext`; otherwise it changes nothing |
| App.PreviousIffHasPrevious | App.tsx:32-36 | previous moves back by one iff `hasPrevious`; otherwise it changes nothing |
| App.NextPreviousInverse | App.tsx:26-36 | next and previous undo each other wherever they move |
| App.SelectInRange | App.tsx:38-42 | select lands on the index iff it is in range; out-of-range selects and the current index change nothing |
| App.NextTimesStopsAtLast | App.tsx:26-30 | k presses of next advance k entries, stopping at the last |
| App.IntakeListsFiles | App.tsx:10-18 | after intake the files are listed in order with names and types, the first is current, previous is off, next is on iff more than one file |
| App.EntriesFresh | App.tsx:12 | the created URLs are pairwise distinct and all new |
| App.EntryChangesWithIndex | App.tsx:44-50 | with distinct URLs, the player's source changes exactly when the index does |
| App.AppState.constructor | App.tsx:7-8 | an empty playlist at index 0, no URLs created or revoked |
| App.AppState.CreateObjectUrl | App.tsx:12 | each call yields a URL never handed out before |
| App.AppState.HandleFilesSelected | App.tsx:10-18 | the playlist becomes `Intake` of the files with fresh URLs; no URL is revoked; the invariant holds |
| App.AppState.HandleBack | App.tsx:20-24 | every URL of the old playlist is revoked, then the state is `Back` |
| App.AppState.HandleNext | App.tsx:26-30 | the state becomes `Next` of the old state; URLs untouched |
| App.AppState.HandlePrevious | App.tsx:32-36 | the state becomes `Previous` of the old state; URLs untouched |
| App.AppState.HandleSelect | App.tsx:38-42 | the state becomes `Select` of the old state; URLs untouched |
| App.Shell.constructor | App.tsx:6-8 | the application starts with an empty playlist at index 0 (the drop zone), no URL created or revoked, and the player in its initial state |
| App.Shell.FilesSelected | App.tsx:48-61 | intake mounts a fresh player that starts the first entry; one URL is created per file and none is revoked |
| App.Shell.Close | App.tsx:51 | the close button revokes the URLs and empties the playlist; no URL is created and the player is untouched |
| App.Shell.Follow | App.tsx:52-53 | a player request moves the index; the player restarts iff the entry changed; no URL is created or revoked |
| App.Shell.VideoEnded | components/Player.tsx:298-304 | at the end with a next entry, the index advances and the next entry starts; otherwise the index stays and the player stops; no URL is created or revoked |
| App.Shell.KeyDown | components/Player.tsx:125-130 | 'n'/'p' reach the playlist; the player restarts iff the entry changed; no URL is created or revoked |
| App.Shell.SelectEntry | components/Player.tsx:317-319 | a clicked row selects that entry; the player restarts iff the entry changed; no URL is created or revoked |

## Left out

- Focus on mount, the cursor style, `scrollIntoView` of the active row, CSS classes and opacity: presentation only, with no state the session reads.
- The `videoRef`/`containerRef` null guards: the handlers are modelled for a mounted element; an unmounted element makes every handler a no-op.
- Fullscreen API calls and their promise errors: whether a fullscreen element exists is a parameter (`fullscreenActive`).
- The 3000 ms delay and timer scheduling: a pending hide is a value, and firing it is an explicit event.
- Canvas capture and the remote SDK call: the captured frame is a parameter, and the model's reply is the `client` function.
- `console.error` logging and `process.env`: the API key is a parameter.
- Asynchronous ordering: a rejected `play()` is a separate event (`StartRejected`) that may follow `EntryChanged`; an analysis outcome is a separate event (`FinishAnalyze`).
- Browser media behaviour: resets on a new `src`, clamping of assigned times, and NaN durations before metadata loads. The element's position and duration are fields the caller sets.
- IEEE double rounding: times and volumes are exact reals, so for example 0.9 + 0.1 is exactly 1.
- PlayerControls.FormatTime: defined for non-negative times only; the NaN and negative inputs a browser can produce are not modelled.
- Strings.Lower: lower-cases ASCII letters only, not full Unicode case mapping.
- Strings.LowerChar: keeps every non-ASCII character, where `toLowerCase` would lower non-ASCII capitals such as 'Ä'. The shortcuts differ only for a non-ASCII key value whose lower case is a shortcut letter: U+212A KELVIN SIGN lowers to 'k', play/pause in the code, but is no shortcut in the model.
- The CSS uppercase rendering of the badge text.
- The progress-bar width `currentTime / duration`: presentation only.
- The drop zone (components/DropZone.tsx), the analysis overlay (components/AnalysisOverlay.tsx) and the button component (components/Button.tsx) are not part of this model, except that intake is called with at least one file.
- Player.Session.HandleSeek: the slider's time is not clamped to the duration, as in the source; the time is only required to be non-negative.
- The re-registration of the keydown listener on every dependency change is modelled only for the 'm' finding (`Rerendered`, `KeyPressedAsWritten`, `StaleMuteKey`). The rest of the model uses the current state in every shortcut, which matches the code for all dependencies except `isMuted`.

## Findings

| source | as written | input that shows it | evidently intended | confidence | as-written member | corrected member |
|---|---|---|---|---|---|---|
| components/Player.tsx:121-124, 143 | the keydown listener calls the `handleToggleMute` of the render it was registered in, which negates that render's `isMuted`; `isMuted` is not among the effect's dependencies, so muting does not renew the listener | an unmuted player, press 'm', then 'm' again with nothing else changing: both presses set muted | the second press unmutes, like the mute button | not executed; high | Player.StaleMuteKey | Player.MuteKeyTwiceRestores |
