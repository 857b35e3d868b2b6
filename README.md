# Podcast player with timestamp annotations: a Dafny model

This project models the behaviour beneath the React views of a podcast player.
Listeners attach notes ("annotations") to moments of an episode. The model covers:

- **The data types**: podcasts, episodes, the four annotation types, annotations, the three player states and the nine playback speeds.
- **The annotation store** (`AnnotationContext.AnnotationProvider`): add, update, delete, select and the timestamp query. It is a class whose `seq` of annotations and `Option` selection the methods replace.
- **The player mirror** (`PlayerContext.PlayerProvider`): a class holding the state the views read, plus the audio element it drives. The element is an environment. It is modelled as fields (`audioTime`, `audioVolume`, `audioRate`, `pendingPlays`) and a `hasAudio` flag. Its notifications arrive as `MediaEvent`s. The outcome of a `play()` request arrives through `SettlePlay`.
- **`formatTime`**: on the full real line, with JavaScript's truncating `%`, `Math.floor`, `padStart` and the NaN/Infinity guard. An integer reference definition (`ClockFace`) and a parser (`ParseClock`) state what the output means.
- **The components' decision rules**:
  - the notes panel's filter and sort pipeline, filter toggling and choice of content;
  - the timeline's seek, tooltip, progress and marker geometry, and marker titles and colours;
  - the new-note form's submit;
  - a note card's edit, save, cancel, delete, jump and share link;
  - the controls' volume icon, speed menu and play label.

Array operations are generic functions in `Seqs`: `filter`, `find`, and a stable `sort` by numeric key. String operations are in `Strings`: decimal digits, `padStart`, `trim` with the ECMAScript white-space set, `substring`, capitalising and `split`. `Utf16` encodes a string into UTF-16 code units, the units JavaScript's `length` and `substring` count, and decodes them back. Clock readings are parameters. `clockMillis` stands for `Date.now()`, from which a new id is built. `now` stands for the ISO-8601 string of the current instant.

## Model

| member | source | states |
|---|---|---|
| Types.ParseAnnotationType | src/types/index.ts:21 | a string is accepted exactly when it is one of "general", "quote", "reference", "question" |
| Types.AnnotationTypeUnion | src/types/index.ts:21 | the union has four members; each name reads back as its member and distinct members have distinct names |
| Controls.SpeedMenuComplete | src/components/Controls.tsx:23 | the menu's nine speeds are strictly ascending, each is a `PlaybackSpeed` (src/types/index.ts:36), and every `PlaybackSpeed` is among them |
| Seqs.Filter | src/components/AnnotationPanel.tsx:45 | the result keeps exactly the elements satisfying the predicate and is no longer than the input |
| Seqs.FilterAppend | src/context/AnnotationContext.tsx:52 | filtering distributes over concatenation, so the survivors keep their relative order |
| Seqs.Find | src/context/AnnotationContext.tsx:64 | `find` yields nothing exactly when no element satisfies the predicate, else a satisfying element of the list |
| Seqs.FindIndex | src/context/AnnotationContext.tsx:64 | the index found is that of the first element satisfying the predicate |
| Seqs.SortBy | src/components/AnnotationPanel.tsx:53 | the result is ascending by key and a permutation of the input |
| Seqs.SortByStable | src/components/AnnotationPanel.tsx:53 | elements with equal keys keep their input order (the sort is stable) |
| Strings.NatToStringRoundTrip | src/utils/formatters.ts:8-9 | the decimal text of a whole number reads back as that number |
| Strings.PadStartDigits | src/utils/formatters.ts:8-9 | padding digits with leading zeros keeps their value |
| Strings.BlankIffAllWhitespace | src/components/CreateAnnotation.tsx:24 | a text trims to empty exactly when every character is white space |
| Strings.Prefix | src/components/Timeline.tsx:101 | `substring(0, n)` is the first `min(n, length)` units of the sequence; the marker title applies it to UTF-16 code units |
| Strings.Capitalize | src/components/Annotation.tsx:143 | the first character is upper-cased and the rest kept |
| AnnotationContext.AnnotationProvider.constructor | src/context/AnnotationContext.tsx:18-19 | the store starts with the fixture annotations and no selection |
| AnnotationContext.AnnotationProvider.AddAnnotation | src/context/AnnotationContext.tsx:21-35 | appends exactly one note with the given episode, time, text and type, shared, created and updated `now`; earlier notes and the selection are unchanged; empty text is accepted |
| AnnotationContext.ApplyPatch | src/context/AnnotationContext.tsx:41-45 | present patch fields replace the note's; absent ones keep it; `updatedAt` is always `now`; id, episode and creation stamp cannot change |
| AnnotationContext.ApplyPatchIdempotent | src/context/AnnotationContext.tsx:41-45 | applying a patch twice at one instant equals applying it once |
| AnnotationContext.UpdateById | src/context/AnnotationContext.tsx:37-49 | the length is kept, notes with another id are untouched, and notes with the id are patched |
| AnnotationContext.UpdateUnknownId | src/context/AnnotationContext.tsx:37-49 | an update naming an absent id leaves the list identical |
| AnnotationContext.AnnotationProvider.UpdateAnnotation | src/context/AnnotationContext.tsx:37-49 | the list becomes the patched list; the selected snapshot is unchanged |
| AnnotationContext.RemoveById | src/context/AnnotationContext.tsx:52 | the result holds exactly the notes with another id |
| AnnotationContext.RemoveByIdOrder | src/context/AnnotationContext.tsx:52 | deletion keeps the order of the rest, and deleting an absent id removes nothing |
| AnnotationContext.RemoveByIdCount | src/context/AnnotationContext.tsx:52 | the number removed is the number of notes carrying the id |
| AnnotationContext.AnnotationProvider.DeleteAnnotation | src/context/AnnotationContext.tsx:51-56 | removes every note with the id; clears the selection exactly when it has that id |
| AnnotationContext.AnnotationProvider.SelectAnnotation | src/context/AnnotationContext.tsx:58-66 | null clears the selection; an id selects the first note with it, or nothing |
| AnnotationContext.AnnotationProvider.GetAnnotationsForTimestamp | src/context/AnnotationContext.tsx:68-79 | returns, from the store, exactly the episode's notes at that time (zero range) or within the range of it |
| AnnotationContext.ZeroRangeIsDistanceTest | src/context/AnnotationContext.tsx:73-75 | the exact-match branch agrees with the distance test at range zero |
| AnnotationContext.NegativeRangeMatchesNothing | src/context/AnnotationContext.tsx:75 | a negative range matches no note |
| PlayerContext.PlayerProvider.constructor | src/context/PlayerContext.tsx:26-32 | no episode, paused, duration and time 0, volume 0.8, speed 1, panel open |
| PlayerContext.PlayerProvider.HandleEvent | src/context/PlayerContext.tsx:36-61 | time and duration updates copy the element's values; play, pause and load start set their states; ended pauses and rewinds to 0; can-play turns loading into paused and does nothing otherwise; without an element nothing is registered; given a non-negative reported duration, the mirrored duration stays non-negative |
| PlayerContext.PlayerProvider.PlayEpisode | src/context/PlayerContext.tsx:74-88 | sets the episode and loading at once and, with an element, issues one play request |
| PlayerContext.PlayerProvider.SettlePlay | src/context/PlayerContext.tsx:81-86 | a settled play request sets playing on success and paused on failure, whichever episode is current |
| PlayerContext.StaleLoadSettlesNewerEpisode | src/context/PlayerContext.tsx:74-88 | a late failure of an earlier load leaves the newer episode paused (no generation guard) |
| PlayerContext.PlayerProvider.TogglePlayPause | src/context/PlayerContext.tsx:91-100 | requests pause exactly when playing and play otherwise, only with an element, and changes no state |
| PlayerContext.PlayerProvider.Seek | src/context/PlayerContext.tsx:102-106 | with an element, the element time and the mirrored time both become exactly the target; otherwise nothing changes |
| PlayerContext.PlayerProvider.SkipForward | src/context/PlayerContext.tsx:108-111 | only the element time moves, by +15 seconds, unclamped |
| PlayerContext.PlayerProvider.SkipBackward | src/context/PlayerContext.tsx:113-116 | only the element time moves, by -15 seconds, unclamped |
| PlayerContext.SkipThenTimeUpdate | src/context/PlayerContext.tsx:108-111 | for any provider with an element: right after a skip the mirrored time is still the old one while the element is 15 seconds ahead; after the next time update both equal the element time; state and duration are untouched |
| PlayerContext.PlayerProvider.SetVolume | src/context/PlayerContext.tsx:118-122 | with an element, the element and mirrored volumes become the value; otherwise nothing changes |
| PlayerContext.PlayerProvider.SetPlaybackSpeed | src/context/PlayerContext.tsx:124-128 | with an element, the element rate and mirrored speed become the speed; otherwise nothing changes |
| PlayerContext.PlayerProvider.ToggleAnnotationPanel | src/context/PlayerContext.tsx:130-132 | flips the panel flag |
| PlayerContext.TogglePanelTwice | src/context/PlayerContext.tsx:130-132 | toggling the panel twice leaves the whole provider unchanged |
| Formatters.FormatTime | src/utils/formatters.ts:1-14 | NaN and the infinities render as "0:00"; the finite case is stated by FormatTimeIsClockFace and FormatTimeNegative |
| Formatters.FieldsDecompose | src/utils/formatters.ts:4-6 | for non-negative input, hours, minutes and seconds are the clock fields of the whole seconds: minutes and seconds below 60, recombining to `floor(s)` |
| Formatters.TwoDigits | src/utils/formatters.ts:9 | a number below 100 as exactly two digits that read back as it |
| Formatters.PadTwo | src/utils/formatters.ts:8-9 | padding a number below 100 to width 2 gives its two-digit form |
| Formatters.FormatTimeIsClockFace | src/utils/formatters.ts:1-14 | for non-negative input the output is the clock face of the whole seconds: "M:SS" under an hour, "H:MM:SS" from an hour |
| Formatters.ClockFaceRoundTrip | src/utils/formatters.ts:8-13 | parsing a clock face gives back its number of seconds |
| Formatters.FormatTimeRoundTrip | src/utils/formatters.ts:1-14 | parsing the output for non-negative input gives back `floor(s)` |
| Formatters.SecondsFieldTwoDigits | src/utils/formatters.ts:9 | the output ends with a colon and two digits holding `floor(s) mod 60` |
| Formatters.FormatTimeExamples | src/data/mockData.ts:16-67 | 3725 gives "1:02:05", 4512 "1:15:12", 435 "7:15", 1256 "20:56", 0 "0:00", 65 "1:05", NaN "0:00" |
| Formatters.FormatTimeNegative | src/utils/formatters.ts:4-13 | strictly between -3600 and 0 the hour field is -1, so the short form is used; its minutes field is `floor(s / 60)` (negative) and its seconds field the floored truncated remainder; the output starts with "-" |
| Formatters.FormatTimeNegativeExamples | src/utils/formatters.ts:4-13 | -5 gives "-1:-5", -60 gives "-1:00" and -3600 gives "0:00" |
| AnnotationPanel.SortedAnnotations | src/components/AnnotationPanel.tsx:44-53 | the list is a permutation of the filtered list, ascending by time, and holds exactly the notes of the episode (and of the filter type, when set) |
| AnnotationPanel.SortedAnnotationsStable | src/components/AnnotationPanel.tsx:48-53 | with no filter the episode list passes through; notes with equal times keep store order |
| AnnotationPanel.ApplyTypeFilter | src/components/AnnotationPanel.tsx:48-50 | with no filter the episode list passes through unchanged; with a filter the result holds exactly the episode notes of that type |
| AnnotationPanel.Entries | src/components/AnnotationPanel.tsx:154-159 | one row per note, in order, highlighted exactly when its id is the selected note's |
| AnnotationPanel.Render | src/components/AnnotationPanel.tsx:14-181 | closed shows only the open button; no episode shows the prompt; the form shows exactly when the panel is open, an episode is current and a note is being created; the list shows exactly when the filtered, sorted list is non-empty, and its rows are exactly that list's entries in order; the filter bar shows exactly when the episode has notes; the empty state's hint is "no match" exactly when the episode has notes, and the add button goes with the other hint |
| AnnotationPanel.NoMatchHintExactly | src/components/AnnotationPanel.tsx:168-170 | "No notes match your current filter" shows exactly when the episode has notes but none passes the filter |
| AnnotationPanel.AnnotationPanelState.constructor | src/components/AnnotationPanel.tsx:11-12 | the panel starts with the form closed and no type filter |
| AnnotationPanel.AnnotationPanelState.HandleFilterChange | src/components/AnnotationPanel.tsx:63-65 | choosing the active type clears the filter; any other choice sets it |
| AnnotationPanel.AnnotationPanelState.ClearFilter | src/components/AnnotationPanel.tsx:100 | "Clear" unsets the filter |
| AnnotationPanel.AnnotationPanelState.HandleCreateAnnotation | src/components/AnnotationPanel.tsx:55-57 | opens the form |
| AnnotationPanel.AnnotationPanelState.HandleCloseCreate | src/components/AnnotationPanel.tsx:59-61 | closes the form |
| AnnotationPanel.ChooseTypeTwice | src/components/AnnotationPanel.tsx:63-65 | choosing one type twice from no filter ends with no filter |
| Timeline.Markers | src/components/Timeline.tsx:16-18 | markers are exactly the current episode's notes, and none without an episode |
| Timeline.Clamp | src/components/Timeline.tsx:25 | `max(0, min(x, hi))` lies in `[0, hi]` and is `x` inside it |
| Timeline.ClickTarget | src/components/Timeline.tsx:21-27 | a click is ignored exactly at zero duration; otherwise the target lies in `[0, duration]`, is `duration * fraction` inside the bar and the nearer end outside it |
| Timeline.TimelineState.HandleProgressClick | src/components/Timeline.tsx:20-28 | with an element and a positive duration, the element and mirrored times both become the click target; at zero duration or without an element the player is unchanged; no other player field can change |
| Timeline.TimelineState.HandleMouseMove | src/components/Timeline.tsx:30-39 | the tooltip fraction is clamped to `[0, 1]` and the tooltip time is `duration` times it, within `[0, duration]` |
| Timeline.TimelineState.HandleMouseLeave | src/components/Timeline.tsx:41-45 | hides the tooltip unless dragging |
| Timeline.TimelineState.HandleAnnotationClick | src/components/Timeline.tsx:47-51 | selects the first note with the clicked note's id (so the clicked note's id when it is stored), then, with an element, seeks both times to the clicked note's time; without an element the player is unchanged; only the selection and the two times can change |
| Timeline.ProgressPercentage | src/components/Timeline.tsx:54 | zero without a positive duration; otherwise the played share times 100, within `[0, 100]` while the time is within the episode |
| Timeline.MarkerLeft | src/components/Timeline.tsx:57-61 | zero at zero duration; within `[0, 100]` for a time within the episode |
| Timeline.MarkerUnderPlayhead | src/components/Timeline.tsx:54-61 | a marker's offset equals the progress when playback is at its time |
| Timeline.MarkerPastEnd | src/components/Timeline.tsx:57-61 | the offset is not clamped: a note past the end sits beyond 100% |
| Timeline.MarkerTitle | src/components/Timeline.tsx:101 | in UTF-16 code units: the text's units when there are at most 40, else its first 40 units followed by "..." |
| Timeline.MarkerTitleBasic | src/components/Timeline.tsx:101 | text without characters above U+FFFF is cut after 40 characters, with "..." exactly when it has more |
| Timeline.MarkerTitleAstral | src/components/Timeline.tsx:101 | text made only of characters above U+FFFF keeps 20 characters, and more than 20 already get "..." |
| Timeline.MarkerTitleThumbs | src/components/Timeline.tsx:101 | 21 thumbs-up signs are 42 code units, so the title is 20 of them and "..." |
| Timeline.MarkerColor | src/components/Timeline.tsx:64-71 | purple exactly for the general type |
| Timeline.MarkerColorInjective | src/components/Timeline.tsx:64-71 | distinct types get distinct marker colours |
| Timeline.MarkerClass | src/components/Timeline.tsx:64-71 | the class is "bg-purple-500" exactly for the general type, the switch's default |
| Timeline.TimelineState.constructor | src/components/Timeline.tsx:11-13 | the bar starts with no tooltip, tooltip time 0 and no drag |
| CreateAnnotation.CreateAnnotationForm.constructor | src/components/CreateAnnotation.tsx:15-17 | the form starts empty, general, shared |
| CreateAnnotation.CreateAnnotationForm.HandleSubmit | src/components/CreateAnnotation.tsx:19-39 | blank text changes nothing and keeps the form open; otherwise exactly one note is appended for the current episode at the current time with the untrimmed text and chosen type, always shared, with id "a" and the clock reading, created and updated `now`; the form resets to "", general, shared and closes; the selection is unchanged |
| CreateAnnotation.SubmittedNoteIsListed | src/components/CreateAnnotation.tsx:21-39 | a non-blank submission always creates a note stamped at the playhead with the typed text, and that note appears in the panel's sorted list for the current episode when the filter admits its type |
| CreateAnnotation.OptionsCoverTypes | src/components/CreateAnnotation.tsx:41-46 | the drop-down lists each of the four types once, in declaration order |
| AnnotationCard.AnnotationCard.constructor | src/components/Annotation.tsx:16-19 | the edit buffers start as copies of the note |
| AnnotationCard.AnnotationCard.HandleGoToTimestamp | src/components/Annotation.tsx:21-23 | with an element, seeks both times to exactly the note's time; without one the player is unchanged; no other player field can change |
| AnnotationCard.AnnotationCard.HandleEdit | src/components/Annotation.tsx:25-30 | reloads the buffers from the note and enters edit mode |
| AnnotationCard.AnnotationCard.HandleDelete | src/components/Annotation.tsx:32-36 | only when confirmed, removes every note with the card's id and clears the selection exactly when it has that id, otherwise keeping it; unconfirmed, the store is unchanged |
| AnnotationCard.AnnotationCard.EditPatch | src/components/Annotation.tsx:45-49 | a save patches text, type and privacy from the buffers and nothing else |
| AnnotationCard.AnnotationCard.HandleSaveEdit | src/components/Annotation.tsx:43-52 | updates the note only when the edited text is not blank; always leaves edit mode |
| AnnotationCard.SaveEditResult | src/components/Annotation.tsx:43-52 | after a save the note has the edited text, type and privacy and keeps its time and creation stamp |
| AnnotationCard.AnnotationCard.HandleCancelEdit | src/components/Annotation.tsx:54-56 | leaves edit mode without touching the store |
| AnnotationCard.ParseShareLink | src/components/Annotation.tsx:40 | the inverse that specifies the link: any link it accepts is rebuilt exactly by `ShareLink` from the episode id and time text it returns, and that id holds no "?" |
| AnnotationCard.ShareLinkRoundTrip | src/components/Annotation.tsx:40 | a link `example.com/podcast/<episode>?t=<time>` reads back as its parts when the id holds no '?' |
| AnnotationCard.ShareLinkWholeSeconds | src/components/Annotation.tsx:40 | for a whole-second note the link's time reads back as the note's second |
| AnnotationCard.ShareMessageLink | src/components/Annotation.tsx:38-41 | the alert is the fixed text followed by a link that reads back as the note's episode id and time text |
| AnnotationCard.TypeLabel | src/components/Annotation.tsx:143 | the type's name with an upper-case first letter |
| AnnotationCard.TypeLabelMatchesOptions | src/components/Annotation.tsx:71-76 | each type's badge label equals its label in the drop-down |
| AnnotationCard.BadgeMatchesMarker | src/components/Annotation.tsx:58-69 | a badge's classes and its type's marker class (src/components/Timeline.tsx:64-71) name the same colour family, and distinct types get distinct badge classes |
| AnnotationCard.TypeStyle | src/components/Annotation.tsx:58-69 | the badge's classes are its colour family at shades 100, 800 and 200; they are the purple ones exactly for the general type, the switch's default |
| AnnotationCard.TypeStyleLiterals | src/components/Annotation.tsx:58-69 | the four types give exactly the four class strings of the switch |
| Controls.SpeedMenu | src/components/Controls.tsx:106-119 | one row per offered speed, in order, highlighted exactly when it is the current speed |
| Controls.OneSpeedHighlighted | src/components/Controls.tsx:113-115 | for any allowed current speed exactly one row is highlighted |
| Controls.GetVolumeIcon | src/components/Controls.tsx:34-38 | muted exactly at zero, low exactly for non-zero below one half, high exactly from one half |
| Controls.VolumeIconMonotone | src/components/Controls.tsx:34-38 | raising the volume never shows a quieter icon |
| Controls.PlayButtonLabel | src/components/Controls.tsx:60-62 | "Pause" exactly when playing, else "Play" |
| Controls.ControlsState.ToggleSpeedMenu | src/components/Controls.tsx:25-27 | flips the menu flag |
| Controls.ControlsState.SelectSpeed | src/components/Controls.tsx:109-112 | closes the menu and, with an element, sets the element rate and mirrored speed; without one the player is unchanged; no other player field can change |
| Controls.ControlsState.HandleVolumeChange | src/components/Controls.tsx:29-32 | with an element, the element and mirrored volumes become the slider value; without one the player is unchanged; no other player field can change |
| Controls.ControlsState.constructor | src/components/Controls.tsx:21 | the speed menu starts closed |

## Left out

- Floating point: times, volumes and fractions are exact reals. NaN and the infinities appear only as the input of `formatTime` (the `JsNumber` datatype). Rounding, and Infinity from a zero-width progress bar, are not modelled.
- `HTMLAudioElement` internals: the element's own clamping of time and volume, its exception for a volume outside `[0, 1]`, the reset of the rate and of the time on a new source (so a skip right after `PlayEpisode` starts from the element's old time until a time update arrives), a duration that is NaN before the metadata loads or infinite for a stream (durations here are non-negative reals, which `HandleEvent` requires of the element), and the event order it produces. Events are inputs to `HandleEvent`; a play request's outcome is an input to `SettlePlay`.
- `setTimeout` and the asynchrony of `play()`: a play request is a counter and its outcome a later call. Interleavings are exactly what the callers write.
- React specifics: stale closures (for instance `handleCanPlay` reading `playerState` from its last registration, and `deleteAnnotation` reading `selectedAnnotation`), state batching, re-registration of listeners and re-rendering of props. Each handler reads the state current at its call.
- `Date.now()` and `toISOString()`: the id is built from a `clockMillis` parameter and one `now` string serves as both stamps. The two separate clock readings of `addAnnotation` are one reading here. Ids are not claimed unique.
- `AnnotationCard.ShareLink`: JavaScript's rendering of a non-integral number in the link is not modelled. The link takes the rendered timestamp text, and `ShareLinkWholeSeconds` covers whole seconds.
- `window.confirm` is a boolean input of `HandleDelete`. `alert` is the string `ShareMessage` returns.
- `parseFloat` of the volume slider's text: `HandleVolumeChange` takes the number.
- The default `rangeInSeconds = 0` of `getAnnotationsForTimestamp`: the range is always passed.
- JavaScript strings holding an unpaired surrogate: a `string` here is a sequence of Unicode scalar values, so a note's text always encodes to well-formed UTF-16.
- `Strings.ToUpperAscii`: `toUpperCase` is modelled for ASCII letters only, which covers the four type names.
- `formatDate`, JSX, CSS classes other than the colour families, icons, and the components `App`, `PodcastPlayer`, `PodcastInfo` and `EpisodeList`. The fixtures of `src/data/mockData.ts` are constants, not a core.
- The `formatTime` labels under the controls and in the form are `FormatTime` applied to the player's times and add no rule of their own.
- The checkbox and text-field `onChange` handlers are plain field assignments, written directly where needed.
