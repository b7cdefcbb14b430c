# Radio and IPTV player: a verified Dafny model

This project models the logic at the core of a web radio and IPTV player with a chat. It is written in Dafny and verified.

- The playback session of the video hook (`src/hooks/useVideoPlayer.ts`):
  - choosing the technology;
  - the engine lifecycle, with its tracked timeouts;
  - building the quality ladder;
  - pinning a quality level;
  - reconciling play and pause.
- The quality menu (`src/components/QualitySelector.tsx`).
- The older audio hook (`src/hooks/usePlayer.ts`): its source decision tree, its fatal-error policy and the initialising gate.
- The chat server (`server/index.js`): validators, the rate limiter, the bounded history and the connected-user map.
- The station directory (`src/context/RadioContext.tsx`): favourites, list edits, import, navigation, and category and default-station rules.
- The chat context (`src/context/ChatContext.tsx`): the unread counter, deleted ids, clear time and filtering.
- The socket service's listener registry (`src/services/socketService.ts`).
- The chat window's form checks and cooldown (`src/components/ChatModal.tsx`).
- The station list filter (`src/components/StationList.tsx`).

There is one module per source file, plus `Common`, which holds the shared records and string helpers:

| file | module |
|---|---|
| `common.dfy` | `Common` |
| `quality_ladder.dfy` | `QualityLadder` (pure) |
| `video_session.dfy` | `VideoSession` (mixed) |
| `quality_selector.dfy` | `QualitySelector` (pure) |
| `audio_player.dfy` | `AudioPlayer` (imperative) |
| `chat_server.dfy` | `ChatServer` (mixed) |
| `radio_directory.dfy` | `RadioDirectory` (mixed) |
| `chat_client.dfy` | `ChatClient` (mixed) |
| `socket_service.dfy` | `SocketService` (imperative) |
| `chat_modal.dfy` | `ChatModal` (mixed) |
| `station_list.dfy` | `StationList` (pure) |

Pure computations are functions with lemmas. State that the source changes in place becomes classes whose methods name what they modify:

- the session's refs and timeouts;
- the hls instance;
- the server's maps;
- the listener registry;
- the providers' state.

Each method's postcondition ties the new state to a specification function. The effects and timers the source schedules are explicit steps:

- a pending timeout is an entry in a map from timer id to task;
- a timer firing is a method call.

Several scenario methods chain these steps. Each proves a multi-step behaviour of the source, for example:

- a cancelled provisioning never creates an engine;
- a stale one-shot `loadeddata` listener still plays;
- an error timer clears a newer error.

Facts about the code that the model follows, where a reader might expect otherwise:

- The code has no load watchdog, no retry-storm counter, no embed bridge and no relay URL rewriting, so none is modelled.
- Play and pause are issued only when the state differs on the plain-element path. With a video.js engine the code calls `play`/`pause` unconditionally (`VideoSession.PlaybackCallFor`).
- A station change clears only the error, the station id, the timeouts and the engine. The quality ladder, level and mode stay until the next update.
- The ladder keeps the first entry of each height after a stable sort by height, which is the lowest representation index, not the highest-bandwidth one (`QualityLadder.RealLevelsKeepFirst`).
- A comment in the code speaks of comparing the "first/last level". The code compares only the length and the first label (`VideoSession.StoredLadder`, `VideoSession.UpdateSuppressesSameLength`).

## Model

| member | source | states |
|---|---|---|
| VideoSession.PlayerTypeOf | src/hooks/useVideoPlayer.ts:43-44 | the player type is video.js exactly when the station URL contains ".m3u8"; with no station it is the plain element |
| VideoSession.HasVideo | src/hooks/useVideoPlayer.ts:43-45 | `hasVideo` holds exactly when the player type is video.js |
| QualityLadder.EffectiveHeight | src/hooks/useVideoPlayer.ts:203 | a nonzero height comes from `rep.height` when that is nonzero, otherwise from the resolution attribute |
| QualityLadder.MapLevels | src/hooks/useVideoPlayer.ts:201-209 | one level per representation, in order, carrying its position as index |
| QualityLadder.FilterPositive | src/hooks/useVideoPlayer.ts:210 | keeps exactly the levels of positive height and keeps their index order |
| QualityLadder.Insert | src/hooks/useVideoPlayer.ts:211 | inserting into the sorted list adds exactly that element |
| QualityLadder.InsertOrdered | src/hooks/useVideoPlayer.ts:211 | inserting an element with a smaller index than all others keeps the list in descending-height, stable order |
| QualityLadder.SortDescending | src/hooks/useVideoPlayer.ts:211 | the sort is a permutation of its input |
| QualityLadder.SortOrdered | src/hooks/useVideoPlayer.ts:211 | the sort orders by descending height and, among equal heights, by increasing index (a stable sort) |
| QualityLadder.FindHeight | src/hooks/useVideoPlayer.ts:215 | `findIndex` by height returns the first position with that height, or -1 when there is none |
| QualityLadder.DedupPrefix | src/hooks/useVideoPlayer.ts:214-216 | the filter over the first n entries keeps at most n of them |
| QualityLadder.Dedup | src/hooks/useVideoPlayer.ts:214-216 | the deduplicated list is no longer than its input and holds only entries of it |
| QualityLadder.DedupKeepsFirsts | src/hooks/useVideoPlayer.ts:214-216 | every kept level is the first entry of the list with its height |
| QualityLadder.DedupComplete | src/hooks/useVideoPlayer.ts:214-216 | every height present in the list is present after deduplication |
| QualityLadder.DedupDescending | src/hooks/useVideoPlayer.ts:211-216 | deduplicating a sorted list gives strictly descending heights |
| QualityLadder.SourceReps | src/hooks/useVideoPlayer.ts:191-196 | the representations are used when the list is non-empty, otherwise the master playlists |
| QualityLadder.FallbackHeight | src/hooks/useVideoPlayer.ts:220-221 | the fallback height is the active playlist's resolution height when it is nonzero, otherwise the element's `videoHeight` |
| QualityLadder.SortedMember | src/hooks/useVideoPlayer.ts:201-211 | every sorted level is the level of its own representation and has a positive height |
| QualityLadder.SortedIsOrdered | src/hooks/useVideoPlayer.ts:211 | the mapped and filtered levels come out sorted by descending height, stably |
| QualityLadder.RealLevels | src/hooks/useVideoPlayer.ts:200-216 | an empty representation list gives no level, and every real level has a positive height |
| QualityLadder.RealLevelsDescribeReps | src/hooks/useVideoPlayer.ts:200-210 | every real level points at a representation, its height is that representation's positive height, and its label is "<height>p" |
| QualityLadder.RealLevelsStrictlyDescending | src/hooks/useVideoPlayer.ts:211-216 | real levels have strictly descending heights, so no height repeats |
| QualityLadder.RealLevelsKeepFirst | src/hooks/useVideoPlayer.ts:211-216 | the level kept for a height has the lowest representation index with that height |
| QualityLadder.RealLevelsComplete | src/hooks/useVideoPlayer.ts:210-216 | every representation with a positive height has its height in the ladder |
| QualityLadder.Levels | src/hooks/useVideoPlayer.ts:219-225 | the ladder is empty iff there is no real level and the fallback height is not positive; when it is not the real levels, it is the single fallback level {0, height, "<height>p"} |
| QualityLadder.WithAuto | src/hooks/useVideoPlayer.ts:227-230 | with at least two levels the Auto entry is put first and the levels follow unchanged; otherwise the ladder is unchanged |
| QualityLadder.LevelsPositive | src/hooks/useVideoPlayer.ts:200-225 | every ladder level has a positive height and a non-negative index |
| QualityLadder.AutoEntryRule | src/hooks/useVideoPlayer.ts:227-230 | the Auto entry {-1, 0, "Auto"} is prepended exactly when there are at least two levels |
| VideoSession.AfterUpdate | src/hooks/useVideoPlayer.ts:190-251 | the stored ladder is either kept or replaced by the ladder built from the engine, with its Auto entry |
| VideoSession.StoredLadder | src/hooks/useVideoPlayer.ts:233-236 | the stored ladder is kept when the new one has the same length and the same first label, and is replaced otherwise |
| VideoSession.MatchActive | src/hooks/useVideoPlayer.ts:240-245 | a match exists only for a known active height and is the index of a level with that height; when there is none, no level has it |
| VideoSession.UpdateKeepsShape | src/hooks/useVideoPlayer.ts:219-236 | an update keeps the stored ladder well shaped: Auto first when there are several levels, and real levels with non-negative indices |
| VideoSession.UpdateMode | src/hooks/useVideoPlayer.ts:219-249 | with no level nothing changes; with one level that level becomes current and auto mode is off; with several, auto mode is on |
| VideoSession.UpdateAgreesWithTracking | src/hooks/useVideoPlayer.ts:238-245 | with several levels and a positive active height, and a representation list that is missing or non-empty, the update selects the same level as the rendition tracker; with an empty list the tracker keeps the current level while the update reads the master playlists |
| VideoSession.UpdateSuppressesSameLength | src/hooks/useVideoPlayer.ts:233-236 | with Auto first, any new ladder of the same length leaves the stored ladder unchanged, even when its levels differ |
| VideoSession.FindRepHeight | src/hooks/useVideoPlayer.ts:278-280 | returns the first representation whose effective height equals the active height, or -1 |
| VideoSession.RenditionReps | src/hooks/useVideoPlayer.ts:275 | the tracker reads the same list as the ladder update, except that an empty representation list stays empty, since `[]` is truthy in JavaScript |
| VideoSession.TrackActive | src/hooks/useVideoPlayer.ts:274-285 | only the current level can change; it moves to the first representation whose height is the active height when there is one, and otherwise stays |
| VideoSession.EnabledAfterSelect | src/hooks/useVideoPlayer.ts:370-394 | representation i ends enabled exactly when the choice is Auto (-1) or i is the chosen index |
| VideoSession.AfterSelect | src/hooks/useVideoPlayer.ts:372-397 | pinning k ≥ 0 makes k current and turns auto mode off; -1 turns auto mode on and moves the current level only to a representation of the active height; the ladder is untouched |
| VideoSession.PlaybackCallFor | src/hooks/useVideoPlayer.ts:318-344 | without a mounted element no call is made; with a video.js engine, play or pause is called unconditionally; on the element path, play only when it is paused and pause only when it is playing |
| VideoSession.Engine.constructor | src/hooks/useVideoPlayer.ts:133-181 | a new engine has the station's URL and its representations, with all of them enabled, and is listening |
| VideoSession.Engine.Dispose | src/hooks/useVideoPlayer.ts:303-312 | disposing removes the listeners and marks the engine disposed |
| VideoSession.Engine.SwitchRendition | src/hooks/useVideoPlayer.ts:265-288 | a rendition switch changes only the active height; the representation list and the enabled flags stay |
| VideoSession.Engine.UpdatePlaylists | src/hooks/useVideoPlayer.ts:253-255 | a playlist update replaces the representation list; flags of existing positions are kept, new positions are enabled, and the flag list stays one per representation |
| VideoSession.Session.constructor | src/hooks/useVideoPlayer.ts:27-53 | starts with no station id, no timeouts, no engine, no error, an empty ladder, level -1 and auto mode |
| VideoSession.Session.ClearAllTimeouts | src/hooks/useVideoPlayer.ts:31-34 | every tracked timeout is cancelled and the tracked list emptied; untracked timers stay |
| VideoSession.Session.AddTrackedTimeout | src/hooks/useVideoPlayer.ts:36-40 | the timer is scheduled and appended to the tracked list |
| VideoSession.Session.DisposeEngine | src/hooks/useVideoPlayer.ts:81-87 | the live engine, if any, is disposed and the handle cleared, so at most one engine stays live |
| VideoSession.Session.OnStation | src/hooks/useVideoPlayer.ts:64-91 | a new station id clears the error, records the id, cancels the tracked timeouts and disposes the engine; the same id resets nothing; in both cases the setup timeout is scheduled with the URL, the playing flag and the player type of that render |
| VideoSession.Session.FireNativeSetup | src/hooks/useVideoPlayer.ts:91-106 | the setup timer acts only when the player type it captured is the plain element: it sets the source, loads it, and plays it if playing was requested |
| VideoSession.Session.ScheduleProvision | src/hooks/useVideoPlayer.ts:123-129 | the provisioning timeout is scheduled only for the video.js type while mounted |
| VideoSession.Session.FireProvision | src/hooks/useVideoPlayer.ts:129-262 | provisioning returns early when an engine exists; otherwise it creates exactly one engine for the URL and schedules the two ladder refreshes when vhs is present |
| VideoSession.Session.Cleanup | src/hooks/useVideoPlayer.ts:301-314 | the effect cleanup cancels the tracked timeouts, disposes the engine and clears the handle |
| VideoSession.Session.UpdateQualityLevels | src/hooks/useVideoPlayer.ts:190-251 | the quality state becomes the update of the old state by the engine's representations and active height |
| VideoSession.Session.OnRenditionChange | src/hooks/useVideoPlayer.ts:265-288 | in auto mode the current level follows the active rendition; in manual mode nothing changes |
| VideoSession.Session.FireRefresh | src/hooks/useVideoPlayer.ts:261-262 | a pending refresh runs the ladder update against the current engine |
| VideoSession.Session.FireCheckQuality | src/hooks/useVideoPlayer.ts:376-390 | a pending check makes the current level follow the height active now, looked up in the representation list captured when the check was scheduled |
| VideoSession.Session.SetQualityLevel | src/hooks/useVideoPlayer.ts:359-398 | with an engine, vhs and representations, sets each enabled flag as `EnabledAfterSelect` and the quality state as `AfterSelect`, and schedules three checks for Auto, each capturing the current representation list; the engine's list and active height are left alone; otherwise changes nothing |
| VideoSession.AutoFollowsRenditionSwitch | src/hooks/useVideoPlayer.ts:265-288 | after provisioning, a rendition switch in auto mode moves the current level to the first representation with the new height |
| VideoSession.StaleProvisionIsCancelled | src/hooks/useVideoPlayer.ts:64-130 | switching to another station before the provisioning timer fires cancels it, so no engine for the old station is ever created |
| QualitySelector.FindByIndex | src/components/QualitySelector.tsx:44 | `find` returns the first level with that index, or nothing when no level has it |
| QualitySelector.AutoLabel | src/components/QualitySelector.tsx:44-45 | the label starts with "Auto"; it is exactly "Auto" iff no level has the current index, and otherwise "Auto (L)" with that level's label |
| QualitySelector.CurrentLabel | src/components/QualitySelector.tsx:42-49 | in auto mode "Auto (L)" for the current level's label L, else "Auto"; in manual mode the current level's label, falling back to "Auto" when it is missing or empty |
| QualitySelector.Render | src/components/QualitySelector.tsx:40-90 | renders nothing exactly for an empty ladder; otherwise one row per level, in order |
| QualitySelector.Choose | src/components/QualitySelector.tsx:95-98 | choosing a row passes its index on and closes the menu |
| QualitySelector.EntryFor | src/components/QualitySelector.tsx:81-90 | a row carries its level's index; it is selected iff auto mode and it is the Auto row, or manual mode and its index is the current level; the Auto row reads like the trigger in auto mode and "Auto" otherwise; other rows show their label |
| QualitySelector.AutoRowMatchesTrigger | src/components/QualitySelector.tsx:84-90 | in auto mode the Auto row's label equals the trigger's label |
| QualitySelector.OneSelectedOnShapedLadder | src/components/QualitySelector.tsx:82 | on a ladder the session stores, auto mode marks exactly one row, the first |
| QualitySelector.PinnedLevelIsShown | src/components/QualitySelector.tsx:47-82 | after pinning a level through the session, its row is selected and the trigger shows its label |
| AudioPlayer.PlanFor | src/hooks/usePlayer.ts:49-96 | hls.js for ".m3u8" with hls.js support; native HLS without it but with `canPlayType`; unsupported with neither; progressive for any other URL |
| AudioPlayer.ErrorActionFor | src/hooks/usePlayer.ts:58-73 | non-fatal errors are ignored; a fatal network error restarts loading, a fatal media error recovers, any other fatal error destroys and fails |
| AudioPlayer.HlsInstance.constructor | src/hooks/usePlayer.ts:51-53 | a new instance loads the URL and is not destroyed |
| AudioPlayer.HlsInstance.Destroy | src/hooks/usePlayer.ts:107-110 | destroying marks the instance destroyed |
| AudioPlayer.AudioSession.constructor | src/hooks/usePlayer.ts:11-14 | starts with no instance, no error and not initialising |
| AudioPlayer.AudioSession.DropHls | src/hooks/usePlayer.ts:42-46 | the previous instance is destroyed and the handle cleared |
| AudioPlayer.AudioSession.OnStation | src/hooks/usePlayer.ts:17-96 | a station change clears the error, pauses, destroys the old instance, and then creates an instance, sets and loads the source, or reports the unsupported error, as `PlanFor` decides |
| AudioPlayer.AudioSession.Cleanup | src/hooks/usePlayer.ts:98-111 | cleanup pauses, clears the source, removes the listeners and destroys the instance |
| AudioPlayer.AudioSession.OnManifestParsed | src/hooks/usePlayer.ts:54-57 | on the live instance, ends initialising and plays if playing was requested |
| AudioPlayer.AudioSession.OnLoadedData | src/hooks/usePlayer.ts:76-96 | every waiting one-shot listener runs once and is removed; each that was registered while playing plays |
| AudioPlayer.AudioSession.OnHlsError | src/hooks/usePlayer.ts:58-73 | on the live instance, applies `ErrorActionFor`; only the destroy path sets "Error al cargar el stream HLS." and ends initialising |
| AudioPlayer.AudioSession.OnMediaError | src/hooks/usePlayer.ts:29-33 | while listening, sets "Error al reproducir la emisora." and reports not playing |
| AudioPlayer.PlayGateOpen | src/hooks/usePlayer.ts:116 | play and pause pass only with a mounted element outside initialisation |
| AudioPlayer.AudioSession.SetPlaying | src/hooks/usePlayer.ts:115-122 | play and pause requests are ignored while initialising; otherwise play or pause is issued |
| AudioPlayer.StaleLoadedListenerRuns | src/hooks/usePlayer.ts:88-112 | two quick progressive station changes leave two one-shot listeners, and both play on the first `loadeddata` |
| ChatServer.Field | server/index.js:172 | destructuring fails exactly when the payload is null or undefined |
| ChatServer.ValidMessage | server/index.js:117-121 | a message is valid iff it is a string of 1 to 500 characters |
| ChatServer.ValidName | server/index.js:175 | a name is valid iff it is a string of 2 to 50 characters |
| ChatServer.Refreshed | server/index.js:129-133 | after more than 60000 ms since the last message, the count is reset to 0 and the time set to now; otherwise the user is unchanged |
| ChatServer.RateStep | server/index.js:123-144 | a message is allowed iff the refreshed count is below 10; an allowed one increments the count and stamps the time; a refused one changes nothing beyond the refresh |
| ChatServer.RateStepBounded | server/index.js:136-143 | the message count never exceeds 10 |
| ChatServer.AtMostTenPerWindow | server/index.js:123-144 | within one 60-second window at most 10 messages are allowed, fewer by the count already used |
| ChatServer.AppendBounded | server/index.js:234-238 | the new message is last; the result is a suffix of the old history followed by it; it is the plain append iff the history held fewer than 50, and otherwise keeps the old length |
| ChatServer.AppendBoundedRule | server/index.js:234-238 | after an append the history holds at most 50 messages, the new one last, and the oldest is dropped when it was full |
| ChatServer.MakeMessage | server/index.js:225-232 | the message carries the sender's id and name, the text and the time stamp; its id is the user id, a dash and more characters |
| ChatServer.Server.constructor | server/index.js:99-100 | starts with no users and an empty history |
| ChatServer.Server.Connect | server/index.js:152-167 | the user is stored with count 0 and time 0; the broadcast listener count is the map size; the history is sent |
| ChatServer.Server.Disconnect | server/index.js:251-257 | the user is removed and the listener count is the map size |
| ChatServer.Server.CheckRateLimit | server/index.js:123-144 | an unknown user is refused and nothing changes; otherwise the user's record becomes the rate step's |
| ChatServer.Server.AppendHistory | server/index.js:234-238 | the history becomes the bounded append |
| ChatServer.Server.Identify | server/index.js:170-196 | a missing payload or a bad name is rejected with no change; otherwise the name is sanitised and the phone hashed; a non-string truthy phone fails with the generic error |
| ChatServer.Server.OnMessage | server/index.js:199-248 | unidentified, invalid and rate-limited messages each get their error and leave the history unchanged; a message passing all three checks is sanitised, appended and broadcast |
| RadioDirectory.Without | src/context/RadioContext.tsx:211 | the filter keeps exactly the other ids |
| RadioDirectory.WithoutAppend | src/context/RadioContext.tsx:211 | the filter keeps the other ids in order |
| RadioDirectory.WithoutAbsent | src/context/RadioContext.tsx:211 | removing an absent id changes nothing |
| RadioDirectory.ToggleFavorite | src/context/RadioContext.tsx:209-214 | toggling flips the id's membership, leaves every other id alone, and appends a new id at the end |
| RadioDirectory.ToggleTwice | src/context/RadioContext.tsx:209-214 | adding and then removing an id restores the list |
| RadioDirectory.RemoveStation | src/context/RadioContext.tsx:217 | every station with that id is removed and the rest are kept |
| RadioDirectory.RemoveStationAppend | src/context/RadioContext.tsx:217 | removal keeps the rest in order |
| RadioDirectory.UpdateStation | src/context/RadioContext.tsx:218 | the length is unchanged |
| RadioDirectory.UpdateKeepsPositions | src/context/RadioContext.tsx:218 | the matching stations are replaced in place; the ids and the other stations stay where they were |
| RadioDirectory.FindStation | src/context/RadioContext.tsx:222 | returns the first position with the id, or -1 |
| RadioDirectory.NextIndex | src/context/RadioContext.tsx:220-225 | for a found station at i, next is (i+1) mod n; every index from -1 up gives a position of the list |
| RadioDirectory.PrevIndex | src/context/RadioContext.tsx:227-232 | for a found station at i, previous is (i-1+n) mod n; every index from -1 up gives a position of the list |
| RadioDirectory.NavigationIndices | src/context/RadioContext.tsx:220-232 | with no current station (index -1), next is 0 and previous is n-2, or 0 for a single station, with JavaScript's remainder |
| RadioDirectory.PrevUndoesNext | src/context/RadioContext.tsx:220-232 | previous after next returns to the same station |
| RadioDirectory.Importable | src/context/RadioContext.tsx:238 | an entry is imported when it has a name and a URL or an iframe URL |
| RadioDirectory.Stamped | src/context/RadioContext.tsx:238-243 | an imported station gets its fresh id and the type "audio" when it had none, keeps its type otherwise, and keeps every other field |
| RadioDirectory.Imported | src/context/RadioContext.tsx:234-248 | the old list is kept as a prefix and at most one station is appended per entry |
| RadioDirectory.ImportedShape | src/context/RadioContext.tsx:234-248 | the import is the old list followed by the import into an empty list; exactly the entries with a name and a URL or iframe URL are appended, each stamped with its new id |
| RadioDirectory.ImportedKeepsPrev | src/context/RadioContext.tsx:234-248 | importing appends to the old list and leaves it untouched |
| RadioDirectory.ImportedOneByOne | src/context/RadioContext.tsx:234-248 | each entry contributes its stamped station when it is importable and nothing otherwise, in entry order |
| RadioDirectory.ImportedSplit | src/context/RadioContext.tsx:234-248 | importing two batches at once gives the same list as importing one after the other |
| RadioDirectory.ValidatedCategory | src/context/RadioContext.tsx:163-171 | after the initial load, a category other than "Todas" that is not in the tab's list is reset to "Todas" |
| RadioDirectory.FindNamed | src/context/RadioContext.tsx:128 | returns the first position with that name, or -1 when no station has it |
| RadioDirectory.DefaultStation | src/context/RadioContext.tsx:128 | the first station named "DJX Discomovil Radio live" when there is one, else the first station |
| RadioDirectory.InitialChoice | src/context/RadioContext.tsx:120-144 | nothing is chosen during the initial load or with no stations; before initialisation, or with no stored id, the default station; afterwards, the first station with the stored id, and nothing iff no station has it |
| RadioDirectory.DeletionFallback | src/context/RadioContext.tsx:147-161 | the default station is chosen exactly when the current station has left the list and its id does not start with "yt-" |
| RadioDirectory.DeletionKeepsListed | src/context/RadioContext.tsx:147-161 | a listed station or a "yt-" station is kept |
| RadioDirectory.Provider.constructor | src/context/RadioContext.tsx:70-108 | starts with no stations, no current station and playback off, with the stored favourites, last station id, initialised flag, tab and category |
| RadioDirectory.Provider.PlayStation | src/context/RadioContext.tsx:201-205 | the station becomes current, playback is on, and its id is stored |
| RadioDirectory.Provider.TogglePlay | src/context/RadioContext.tsx:207 | flips the playing flag |
| RadioDirectory.Provider.ToggleFavoriteOf | src/context/RadioContext.tsx:209-214 | the favourites become the toggled list |
| RadioDirectory.Provider.AddStation | src/context/RadioContext.tsx:216 | the station is appended |
| RadioDirectory.Provider.RemoveStationById | src/context/RadioContext.tsx:217 | the stations become the filtered list |
| RadioDirectory.Provider.UpdateStationRecord | src/context/RadioContext.tsx:218 | the stations become the updated list |
| RadioDirectory.Provider.ImportStations | src/context/RadioContext.tsx:234-248 | the loop builds exactly the imported list |
| RadioDirectory.Provider.Next | src/context/RadioContext.tsx:220-225 | with no current station nothing happens; otherwise the station at the next index is played; with an empty list the call throws after clearing the station |
| RadioDirectory.Provider.Prev | src/context/RadioContext.tsx:227-232 | the same, with the previous index |
| RadioDirectory.Provider.SetActiveTab | src/context/RadioContext.tsx:163-171 | the tab changes and the category is validated against it |
| RadioDirectory.Provider.ApplyDeletionFallback | src/context/RadioContext.tsx:147-161 | applies the deletion fallback and stores the chosen id |
| RadioDirectory.Provider.ApplyInitialChoice | src/context/RadioContext.tsx:120-144 | the current station follows the start-up choice; the initialised flag is set once a load after the initial one has stations; nothing else changes |
| RadioDirectory.EditRestoresStoredStation | src/context/RadioContext.tsx:120-144 | the start-up effect runs again after a list edit: once initialised with the default station, adding a station switches to the stored one |
| ChatClient.UnreadFor | src/context/ChatContext.tsx:62 | the unread count is max(0, length - lastRead): zero iff nothing is beyond the read mark, never above the length |
| ChatClient.AddIfAbsent | src/context/ChatContext.tsx:175-179 | the id ends up in the list and is appended only when it was absent |
| ChatClient.AddIfAbsentKeepsDistinct | src/context/ChatContext.tsx:173-179 | the deleted-id list never holds duplicates |
| ChatClient.RemoveMessage | src/context/ChatContext.tsx:181 | every message with that id is removed and the rest are kept |
| ChatClient.RemoveMessageAppend | src/context/ChatContext.tsx:181 | removal keeps the other messages in order |
| ChatClient.Shown | src/context/ChatContext.tsx:185-189 | a message is shown when it is newer than the clear time and its id is not deleted |
| ChatClient.Visible | src/context/ChatContext.tsx:185-189 | keeps exactly the messages newer than the clear time whose id is not deleted |
| ChatClient.VisibleAppend | src/context/ChatContext.tsx:188 | the filter keeps the original order |
| ChatClient.DeletedStaysHidden | src/context/ChatContext.tsx:173-189 | a message whose id was deleted, or from before the clear time, stays hidden when it arrives again |
| ChatClient.VisibleAfterReset | src/context/ChatContext.tsx:185-189 | with no clear time and no deleted ids, every message stamped after time 0 is shown, in order |
| ChatClient.ChatProvider.constructor | src/context/ChatContext.tsx:32-38 | starts with no messages, zero unread and the modal closed |
| ChatClient.ChatProvider.SyncUnread | src/context/ChatContext.tsx:58-70 | closed with messages, unread is recomputed from the stored read mark; open, the read mark becomes the message count |
| ChatClient.ChatProvider.SetModalOpen | src/context/ChatContext.tsx:50-55 | opening sets unread to 0 and the read mark to the count; closing leaves the read mark, recomputes unread when there are messages and keeps it otherwise |
| ChatClient.ChatProvider.OnIncoming | src/context/ChatContext.tsx:104-106 | an incoming message is appended and unread follows |
| ChatClient.ChatProvider.OnHistory | src/context/ChatContext.tsx:108-110 | a received history replaces the list; closed, unread is recomputed against the read mark when the list is non-empty and kept when it is empty; open, unread is kept and the read mark becomes the count |
| ChatClient.ChatProvider.DeleteMessage | src/context/ChatContext.tsx:173-182 | the id is recorded once and its messages are dropped; unread and the read mark follow as after a history |
| ChatClient.ChatProvider.ClearMessages | src/context/ChatContext.tsx:166-171 | records the clear time, forgets the deleted ids and empties the list; closed, unread and the read mark are kept; open, unread is kept and the read mark becomes 0 |
| ChatClient.ChatProvider.SendMessage | src/context/ChatContext.tsx:158-164 | without an identity nothing is sent; otherwise the text is passed on |
| ChatClient.ChatProvider.Identify | src/context/ChatContext.tsx:152-156 | stores the identity and passes it on; the messages, unread count, modal flag, read mark, clear time, deleted ids and error state are unchanged |
| ChatClient.ChatProvider.OnError | src/context/ChatContext.tsx:120-125 | shows the error and starts a timer |
| ChatClient.ChatProvider.FireErrorTimer | src/context/ChatContext.tsx:124 | a firing timer clears whatever error is shown |
| ChatClient.ChatProvider.Logout | src/context/ChatContext.tsx:40-48 | forgets the identity, the clear time and the deleted ids, and empties the list; unread and the read mark follow as after a clear; then disconnects and connects the socket, in that order |
| ChatClient.ChatProvider.FilteredMessages | src/context/ChatContext.tsx:185-189 | exactly the stored messages that are shown, never more than are stored |
| ChatClient.UnreadCountsArrivals | src/context/ChatContext.tsx:50-70 | after opening and closing the chat, the badge counts exactly the messages that arrive afterwards |
| ChatClient.SecondErrorClearedEarly | src/context/ChatContext.tsx:120-125 | the first error's timer also clears a second error that arrived before it fired |
| ChatClient.LogoutRevealsHistory | src/context/ChatContext.tsx:40-48 | after a logout and the history the server sends on the new connection, every message of that history is shown, including those cleared or deleted before |
| SocketService.ListenersOf | src/services/socketService.ts:84 | an event without a list has no callbacks |
| SocketService.RemoveFirst | src/services/socketService.ts:83-91 | an absent callback changes nothing; a present one shortens the list by one |
| SocketService.RemoveFirstSplits | src/services/socketService.ts:86-89 | exactly the first occurrence is removed; what precedes and follows it keeps its order |
| SocketService.RemoveFirstMultiset | src/services/socketService.ts:83-91 | exactly one copy of the callback is removed |
| SocketService.OffUndoesOn | src/services/socketService.ts:76-91 | registering a new callback and removing it restores the list |
| SocketService.ForwardedName | src/services/socketService.ts:23-58 | connection events are forwarded as "connection:status" and broadcasts as "chat:message" |
| SocketService.StatusOf | src/services/socketService.ts:23-37 | only connection events carry a status |
| SocketService.Transport.constructor | src/services/socketService.ts:15-20 | a new handle is not yet connected |
| SocketService.Service.constructor | src/services/socketService.ts:9-10 | starts with no handle and no listeners |
| SocketService.Service.IsConnected | src/services/socketService.ts:100-102 | connected iff a handle exists and reports connected |
| SocketService.Service.Connect | src/services/socketService.ts:12-20 | does nothing when already connected; otherwise installs a new handle |
| SocketService.Service.Disconnect | src/services/socketService.ts:61-66 | closes and drops the handle |
| SocketService.Service.Identify | src/services/socketService.ts:68-70 | sends only when a handle exists |
| SocketService.Service.SendMessage | src/services/socketService.ts:72-74 | sends only when a handle exists |
| SocketService.Service.On | src/services/socketService.ts:76-81 | appends to the event's list, creating it; duplicates are allowed |
| SocketService.Service.Off | src/services/socketService.ts:83-91 | drops the first occurrence from that event's list only |
| SocketService.Service.Emit | src/services/socketService.ts:93-98 | calls exactly the event's callbacks, in registration order |
| SocketService.Service.OnTransport | src/services/socketService.ts:23-58 | the connected flag follows the transport, and the event is emitted under its forwarded name |
| SocketService.DuplicateRegistrationSurvivesOneOff | src/services/socketService.ts:76-98 | a callback registered twice and removed once is still called once; other events are untouched |
| ChatModal.IdentifyOutcomeFor | src/components/ChatModal.tsx:52-71 | rejected iff the trimmed name has fewer than 2 or more than 50 characters, with the matching message; otherwise the trimmed name and the trimmed phone, or none when it is empty |
| ChatModal.AcceptedNamePassesServer | src/components/ChatModal.tsx:55-68 | every name the form accepts passes the server's name check |
| ChatModal.SendOutcomeFor | src/components/ChatModal.tsx:73-92 | blocked during the cooldown; an empty trimmed text does nothing; over 500 characters is an error; otherwise the trimmed text is sent |
| ChatModal.SentTextPassesServer | src/components/ChatModal.tsx:81-92 | every text the form sends passes the server's message check |
| ChatModal.BadgeText | src/components/ChatModal.tsx:124-126 | no badge at zero, "99+" above 99, otherwise the count |
| ChatModal.BadgeIsShort | src/components/ChatModal.tsx:124-126 | a badge has 1 to 3 characters |
| ChatModal.ChatForm.constructor | src/components/ChatModal.tsx:26-32 | starts with an empty input and no error, and sending allowed |
| ChatModal.ChatForm.HandleIdentify | src/components/ChatModal.tsx:52-71 | shows the rejection message, or passes the identity on and clears the error |
| ChatModal.ChatForm.HandleSend | src/components/ChatModal.tsx:73-104 | applies `SendOutcomeFor`; a send clears the input and the error and starts the cooldown |
| ChatModal.ChatForm.FireRestore | src/components/ChatModal.tsx:100-103 | the cooldown timer allows sending again and clears the error |
| ChatModal.ChatForm.Type | src/components/ChatModal.tsx:306 | typing sets the input |
| ChatModal.SecondSendWaitsForCooldown | src/components/ChatModal.tsx:73-104 | a second send before the timer fires is dropped, and one after it goes out |
| Common.Trim | src/components/ChatModal.tsx:55 | the result is a slice of the input with only white space cut from either end, and starts and ends with a non-space character unless it is empty |
| Common.ToLower | src/components/StationList.tsx:14-15 | the result has the input's length, with every character lower-cased |
| Common.Contains | src/components/StationList.tsx:14-15 | a string contains another when it occurs at some position |
| Common.NatToString | src/components/ChatModal.tsx:124-126 | the printed count is decimal digits, at least one, with a leading zero only for 0 |
| Common.NatToStringValue | server/index.js:227 | reading the printed digits back as a decimal number gives the number printed |
| Common.JsRem | src/context/RadioContext.tsx:223-230 | the remainder differs from the dividend by a multiple of the divisor; it is the modulus for a non-negative dividend and lies in (-n, 0] for a negative one, as JavaScript's truncating `%` gives |
| StationList.Matches | src/components/StationList.tsx:13-16 | a station matches when its lower-cased name or country contains the lower-cased query |
| StationList.Filtered | src/components/StationList.tsx:13-16 | keeps exactly the stations whose lower-cased name or country contains the lower-cased query |
| StationList.FilteredAppend | src/components/StationList.tsx:13-16 | the filter keeps the original order |
| StationList.EmptyQueryKeepsAll | src/components/StationList.tsx:13-16 | an empty query keeps every station |
| StationList.QueryCaseIgnored | src/components/StationList.tsx:13-16 | the query's letter case does not matter |
| StationList.FavoriteStations | src/components/StationList.tsx:21 | keeps exactly the stations whose id is a favourite |
| StationList.FavoriteStationsAppend | src/components/StationList.tsx:21 | the favourites keep the list's order |
| StationList.Displayed | src/components/StationList.tsx:18-22 | the all tab shows the filtered list and the favourites tab the favourites, ignoring the query; the recent tab has no list |

## Left out

- I/O and persistence are replaced by fields and parameters:
  - `localStorage` reads and writes: the read mark, the clear time, the deleted ids, the last station id, the tab and the category;
  - `fetch` of the station list;
  - `JSON.parse`;
  - the bandwidth persistence on rendition change.
- Time, random ids and timer ids are parameters.
- Timer delays (50, 100, 500, 1000, 2000, 3000, 5000 and 6000 ms) are not modelled. A pending timer is an entry in a map, and firing it is a method call in whatever order the caller chooses.
- Volume handling is floating point and is left out.
- The server proxies, static serving and health endpoint are network I/O.
- Socket.io's transport and reconnection are not modelled. So are video.js, hls.js and DOMPurify/bcrypt internals:
  - the engine is an object holding a representation list, an active height and enabled flags. Playlist updates and rendition switches are steps the caller invokes. A representation that appears in a playlist update is taken as enabled;
  - hls.js is a handle with restart and recovery counters;
  - sanitising and hashing are function parameters.
- React's rendering and effect scheduling are steps the caller sequences. State setters are applied at once.
- The play and pause promise rejections are not modelled: they are only logged, and never reach the error state. Only the decision of which call is made is modelled.
- `hlsRef` in the video hook is never assigned a non-null value, so its destroy branch is dead code and is not modelled.
- The element `play`/`pause` listeners that the video hook's setup timer adds are not modelled. The cleanup function that timer returns is discarded by `setTimeout`, so those listeners are never removed. The model does not track listeners on the element.
- The socket service's handler for a handle that was replaced without being closed keeps forwarding events. The model only forwards events from the current handle.
- Re-entrant `on`/`off` from inside a callback during `emit` is not modelled.
- Common.Trim and Common.ToLower: only ASCII white space and ASCII letters are handled, not the full Unicode tables of `trim()` and `toLowerCase()`.
- ChatServer.ValidMessage: lengths count Dafny characters, while JavaScript counts UTF-16 code units. The two differ for characters outside the Basic Multilingual Plane.
- ChatServer.ValidName: the 2 to 50 character bounds count Dafny characters, not UTF-16 code units, as for messages.
- ChatModal.IdentifyOutcomeFor: the 2 and 50 character bounds on the trimmed name count Dafny characters, not UTF-16 code units.
- ChatModal.SendOutcomeFor: the 500 character bound on the trimmed text counts Dafny characters, not UTF-16 code units.
- RadioDirectory.Provider.Next: with an empty list the source computes a NaN index and throws inside `playStation`. The model returns `Threw` after the two state updates that were queued before the throw.
- StationList.Displayed: the radio context does not provide `recentStations`, so the recent tab's list is `undefined` and reading its length fails. The model returns no list.
