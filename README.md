# Internet radio: the playback command state machine

This project models the playback logic of a small Android internet-radio app and proves properties of it. The logic comes in three pieces:

- **`RadioService`**, the playback coordinator. It owns `currentStation`, `isPlaying`, `volume` and one optional `mediaPlayer`. Each of `playRadio`, `pauseRadio`, `resumeRadio` and `setVolume` posts a closure to a single handler thread, and that thread runs the closures one at a time in FIFO order. Player callbacks (prepared, error, completion) arrive on the looper of the thread that created the player. That is the same handler thread, so they are queued behind pending commands. Audio-focus changes post a pause or a resume. `onDestroy` tears everything down.
- **`RadioViewModel`**, the bridge. It holds an optional service reference, an `isBound` flag and a mirror of the service's `RadioState`. It forwards UI commands to the service.
- **`MainActivity`**, an older copy of the same state machine that lives inside the activity. It keeps the state in Compose state variables and differs from the service in ways the model shows.

## Layout

| file | module | contents |
|---|---|---|
| `radio_types.dfy` | `RadioTypes` | `Option`, `RadioStation`, `RadioState`, `Volume`, URL identity |
| `engine.dfy` | `Engine` | the platform player as opaque session ids: live sessions are the keys of a map, with their started flag and applied gain |
| `coordinator.dfy` | `Coordinator` | functional model of the service (`Execute` runs one closure, `Apply` applies one outside input, `Trace` applies a run of them) and the class `RadioService`, whose fields the methods update and which is proved to follow the functional model step by step |
| `coordinator_properties.dfy` | `CoordinatorProperties` | lemmas about the service |
| `bridge.dfy` | `Bridge` | the class `RadioViewModel` over `Coordinator.RadioService` |
| `in_activity.dfy` | `InActivity` | functional model of the in-activity player and the class `MainActivity` |
| `in_activity_properties.dfy` | `InActivityProperties` | lemmas about the in-activity player |

## Modelling choices

- **Threads.** Each handler thread is a `seq<Command>` queue. A post appends to the queue. A `Tick` takes the oldest closure off and runs it, and whatever that closure posts goes to the back. This is how the toggle branch of `playRadio` works: it calls `pauseRadio`, which posts again.
- **Outside inputs.** Everything that comes from outside the handler thread is one `Input`: a method call, a focus change, a player callback, a lifecycle hook or a handler turn. Each input is applied atomically.
- **Teardown.** `onDestroy` calls `quitSafely()`. After that, later posts are dropped, but closures already queued still run.
- **Player sessions.** A player session is live from creation until `release()`. A released session delivers no more callbacks, because `release()` clears its listeners. An event tagged with a session that is not live is therefore a no-op.
- **Setup failures.** A `Tick(setupFails)` flag stands for an exception thrown while the new player is built. The closure catches it. Because the assignment `mediaPlayer = MediaPlayer().apply { … }` never completes, `mediaPlayer` keeps the handle of the player that was just released.
- **Focus codes.** These are Android's `AudioManager` values: GAIN = 1, LOSS = -1, LOSS_TRANSIENT = -2 and LOSS_TRANSIENT_CAN_DUCK = -3. The focus listener exists only after focus has been requested and before it is abandoned.
- **The in-activity prepared listener** applies the volume captured when `playRadio` was called. The model keeps that value in `preparedVolume`.
- **`RadioState`.** Its declaration is not part of this model's source files. Its shape comes from the constructor calls at `RadioViewModel.kt:20` and `RadioService.kt:212`.

Three behaviours of the code worth knowing:

- `setVolume` stores its argument unclamped (`SetVolumeStoresUnclamped`). Only the UI keeps it within 0..1:
  - the slider's `valueRange` at `RadioUI.kt:92`;
  - the step buttons' `maxOf`/`minOf` at `RadioUI.kt:80` and `RadioUI.kt:96`;
  - in the activity, its own slider's `valueRange` at `MainActivity.kt:247`.
- `isPlaying` can be true with no station. `resumeRadio` sets it at `RadioService.kt:199` and the in-activity toggle at `MainActivity.kt:75` (`ResumeWithoutStationPlays`, `ToggleWithoutStationPlays`).
- Teardown leaves no live session, unless a play was still queued when the looper quit (`TeardownIsFinal`, `PendingPlayOutlivesTeardown`).

## Model

| member | source | states |
|---|---|---|
| `RadioTypes.IsCurrentUrl` | app/src/main/java/com/example/k2025_03_25_basic_radio/RadioService.kt:66 | the null-safe `currentStation?.url == station.url`: no current station matches nothing, and a current station matches exactly when the URLs are equal |
| `Engine.ReleasePlayer` | app/src/main/java/com/example/k2025_03_25_basic_radio/RadioService.kt:75 | releasing the referenced player removes exactly that session from the live set and leaves every other session as it was |
| `Engine.CreatePlayer` | app/src/main/java/com/example/k2025_03_25_basic_radio/RadioService.kt:81-89 | a new player is live, holds the station's URL, is not started and has the platform default gain |
| `Engine.SetRunning` | app/src/main/java/com/example/k2025_03_25_basic_radio/RadioService.kt:189 | pause/start touch only the referenced live player's started flag |
| `Engine.PausePlayer` | app/src/main/java/com/example/k2025_03_25_basic_radio/RadioService.kt:189 | `mediaPlayer?.pause()` stops the referenced live player, keeps its URL and gain, and leaves every other session as it was |
| `Engine.StartPlayer` | app/src/main/java/com/example/k2025_03_25_basic_radio/RadioService.kt:198 | `mediaPlayer?.start()` starts the referenced live player, keeps its URL and gain, and leaves every other session as it was |
| `Engine.SetPlayerVolume` | app/src/main/java/com/example/k2025_03_25_basic_radio/RadioService.kt:207 | `mediaPlayer?.setVolume` sets the gain of the referenced live player only |
| `Engine.ReleaseThenCreateLeavesOne` | app/src/main/java/com/example/k2025_03_25_basic_radio/RadioService.kt:75-81 | release before create leaves exactly the new session live |
| `Coordinator.FocusCommand` | app/src/main/java/com/example/k2025_03_25_basic_radio/RadioService.kt:126-131 | LOSS and LOSS_TRANSIENT map to pause, GAIN maps to resume, and every other code maps to nothing (both directions) |
| `Coordinator.Execute` | app/src/main/java/com/example/k2025_03_25_basic_radio/RadioService.kt:64-113 | running any closure keeps at most one live session, named by `mediaPlayer`; whatever it posts is a single pause, and only the toggle branch of play (the station already current and playing) posts at all |
| `Coordinator.Destroyed` | app/src/main/java/com/example/k2025_03_25_basic_radio/RadioService.kt:219-234 | teardown leaves no live session and no player reference, and marks the looper quit |
| `Coordinator.Post` | app/src/main/java/com/example/k2025_03_25_basic_radio/RadioService.kt:64 | a post is dropped exactly when the looper has quit (`quitSafely` at line 223); otherwise it is the one closure |
| `Coordinator.Enqueue` | app/src/main/java/com/example/k2025_03_25_basic_radio/RadioService.kt:188 | posting from outside appends the closure at the back and keeps what is queued in front of it; nothing else changes |
| `Coordinator.RunHead` | app/src/main/java/com/example/k2025_03_25_basic_radio/RadioService.kt:44-45 | a turn of the handler thread runs the oldest closure as `Execute` says; the rest of the queue stays in front of what it posts; the queue never grows; the invariant is kept |
| `Coordinator.Apply` | app/src/main/java/com/example/k2025_03_25_basic_radio/RadioService.kt:63-213 | every outside input (command, focus change, callback, handler turn, teardown) preserves the one-live-session invariant |
| `Coordinator.RadioService.constructor` | app/src/main/java/com/example/k2025_03_25_basic_radio/RadioService.kt:24-48 | after `onCreate` the fields have their initialisers (no station, not playing, volume 0.5, no player) and nothing is queued |
| `Coordinator.RadioService.GetCurrentState` | app/src/main/java/com/example/k2025_03_25_basic_radio/RadioService.kt:211-213 | the state returned is exactly `(currentStation, isPlaying, volume)` |
| `Coordinator.RadioService.PostCommand` | app/src/main/java/com/example/k2025_03_25_basic_radio/RadioService.kt:64 | `handler.post` appends to the queue, or drops the closure once the looper has quit, and changes nothing else |
| `Coordinator.RadioService.PlayRadio` | app/src/main/java/com/example/k2025_03_25_basic_radio/RadioService.kt:63-64 | `playRadio` only posts the play closure |
| `Coordinator.RadioService.PauseRadio` | app/src/main/java/com/example/k2025_03_25_basic_radio/RadioService.kt:187-188 | `pauseRadio` only posts the pause closure |
| `Coordinator.RadioService.ResumeRadio` | app/src/main/java/com/example/k2025_03_25_basic_radio/RadioService.kt:195-196 | `resumeRadio` only posts the resume closure |
| `Coordinator.RadioService.SetVolume` | app/src/main/java/com/example/k2025_03_25_basic_radio/RadioService.kt:204-205 | `setVolume` only posts the volume closure |
| `Coordinator.RadioService.OnAudioFocusChange` | app/src/main/java/com/example/k2025_03_25_basic_radio/RadioService.kt:126-131 | the focus listener posts exactly what `FocusCommand` says, and only while focus is held |
| `Coordinator.RadioService.OnEngineEvent` | app/src/main/java/com/example/k2025_03_25_basic_radio/RadioService.kt:90-104 | a live player's callback is queued on the handler thread; a released player raises nothing |
| `Coordinator.RadioService.Step` | app/src/main/java/com/example/k2025_03_25_basic_radio/RadioService.kt:64-113 | the handler runs the oldest closure; the new fields and queue are those of the functional model, and the invariant is kept |
| `Coordinator.RadioService.Run` | app/src/main/java/com/example/k2025_03_25_basic_radio/RadioService.kt:188-208 | the pause, resume and volume closure bodies change the fields as `Execute` says |
| `Coordinator.RadioService.RunPlay` | app/src/main/java/com/example/k2025_03_25_basic_radio/RadioService.kt:65-112 | the play closure body, including the toggle branch's nested `pauseRadio` post and the caught setup exception |
| `Coordinator.RadioService.RunCallback` | app/src/main/java/com/example/k2025_03_25_basic_radio/RadioService.kt:90-104 | the prepared, error and completion listeners change the fields as `Execute` says |
| `Coordinator.RadioService.OnDestroy` | app/src/main/java/com/example/k2025_03_25_basic_radio/RadioService.kt:219-234 | `onDestroy` releases the player, nulls it, quits the looper and leaves the invariant intact |
| `CoordinatorProperties.PlayWhilePlayingOnlyPostsPause` | app/src/main/java/com/example/k2025_03_25_basic_radio/RadioService.kt:66-69 | playing the station that is playing only posts a pause; station, player, volume and every other field are unchanged |
| `CoordinatorProperties.PlayReplacesSession` | app/src/main/java/com/example/k2025_03_25_basic_radio/RadioService.kt:72-112 | otherwise: focus requested, old session released before one fresh session for the station is created, station set, volume kept, `isPlaying` untouched; on a setup exception no session is live, `isPlaying` is false and `mediaPlayer` keeps the stale handle |
| `CoordinatorProperties.PausedStationIsReloaded` | app/src/main/java/com/example/k2025_03_25_basic_radio/RadioService.kt:66-81 | playing the current station while paused reloads it with a new session instead of resuming the old one |
| `CoordinatorProperties.PlayNeverStartsPlaying` | app/src/main/java/com/example/k2025_03_25_basic_radio/RadioService.kt:63-113 | the play closure never turns `isPlaying` on |
| `CoordinatorProperties.PreparedStartsPlayback` | app/src/main/java/com/example/k2025_03_25_basic_radio/RadioService.kt:90-95 | the prepared listener applies the volume stored at that moment, starts the player and sets `isPlaying`; station and volume stay |
| `CoordinatorProperties.ErrorAndCompletionStopPlayback` | app/src/main/java/com/example/k2025_03_25_basic_radio/RadioService.kt:96-104 | the error and completion listeners clear `isPlaying` and keep the station, volume and player reference |
| `CoordinatorProperties.ReleasedSessionIsInert` | app/src/main/java/com/example/k2025_03_25_basic_radio/RadioService.kt:75 | a callback tagged with a released session changes nothing |
| `CoordinatorProperties.PauseStops` | app/src/main/java/com/example/k2025_03_25_basic_radio/RadioService.kt:187-193 | pause stops the live player, if any, and clears `isPlaying`; station and volume stay |
| `CoordinatorProperties.ResumeStarts` | app/src/main/java/com/example/k2025_03_25_basic_radio/RadioService.kt:195-202 | resume requests focus, starts the live player, if any, and sets `isPlaying` whether or not a station or player exists |
| `CoordinatorProperties.SetVolumeStoresUnclamped` | app/src/main/java/com/example/k2025_03_25_basic_radio/RadioService.kt:204-209 | the volume is stored exactly as given and applied to the live player |
| `CoordinatorProperties.DestroyReleasesEverything` | app/src/main/java/com/example/k2025_03_25_basic_radio/RadioService.kt:219-234 | teardown leaves no live session, no player, no focus and no foreground, and keeps the pending queue |
| `CoordinatorProperties.FocusChangeDispatch` | app/src/main/java/com/example/k2025_03_25_basic_radio/RadioService.kt:142-147 | while focus is held, a focus change posts pause for LOSS and LOSS_TRANSIENT, resume for GAIN, nothing for CAN_DUCK, and changes no field |
| `CoordinatorProperties.ApplyKeepsPending` | app/src/main/java/com/example/k2025_03_25_basic_radio/RadioService.kt:64 | one input either appends to the queue or removes just its oldest entry |
| `CoordinatorProperties.PendingCommandsRunInOrder` | app/src/main/java/com/example/k2025_03_25_basic_radio/RadioService.kt:64 | FIFO: after any run with t handler turns, the commands pending at the start that have not run are still at the front of the queue, in posting order |
| `CoordinatorProperties.TogglePauseQueuedBehindPending` | app/src/main/java/com/example/k2025_03_25_basic_radio/RadioService.kt:66-68 | running a toggle leaves the service unchanged and places its pause behind every command already pending |
| `CoordinatorProperties.TogglePauseRunsAfterPending` | app/src/main/java/com/example/k2025_03_25_basic_radio/RadioService.kt:188 | the toggle's pause reaches the head of the queue only after every command that was pending has run |
| `CoordinatorProperties.TraceKeepsConsistent` | app/src/main/java/com/example/k2025_03_25_basic_radio/RadioService.kt:75-81 | at most one session is live after any run from a consistent state |
| `CoordinatorProperties.CreatedIsConsistent` | app/src/main/java/com/example/k2025_03_25_basic_radio/RadioService.kt:24-29 | a fresh service is consistent and has no live session |
| `CoordinatorProperties.NoSessionAfterTeardown` | app/src/main/java/com/example/k2025_03_25_basic_radio/RadioService.kt:219-223 | once the looper has quit with nothing live and no play pending, no session ever becomes live again |
| `CoordinatorProperties.TeardownIsFinal` | app/src/main/java/com/example/k2025_03_25_basic_radio/RadioService.kt:219-234 | teardown followed by any inputs leaves no live session, provided no play was pending |
| `CoordinatorProperties.PendingPlayOutlivesTeardown` | app/src/main/java/com/example/k2025_03_25_basic_radio/RadioService.kt:223 | a play still queued at teardown creates a session after the service is destroyed |
| `CoordinatorProperties.OneStationStaysCurrent` | app/src/main/java/com/example/k2025_03_25_basic_radio/RadioService.kt:66-76 | any run whose only plays are of one station that is already current never changes `currentStation` |
| `CoordinatorProperties.ResumeWithoutStationPlays` | app/src/main/java/com/example/k2025_03_25_basic_radio/RadioService.kt:195-202 | resuming a fresh service reports playing with no station and no player |
| `CoordinatorProperties.FirstPlayPrepares` | app/src/main/java/com/example/k2025_03_25_basic_radio/RadioService.kt:63-95 | a fresh service asked to play, once its player reports prepared, has that station current and playing with exactly one started session at volume 0.5 |
| `CoordinatorProperties.ReplayPauses` | app/src/main/java/com/example/k2025_03_25_basic_radio/RadioService.kt:66-69 | playing the station that is playing makes the toggle post a pause, and after it runs the same session is stopped and `isPlaying` is false |
| `CoordinatorProperties.SwitchPrepares` | app/src/main/java/com/example/k2025_03_25_basic_radio/RadioService.kt:75-95 | playing another station from a paused one releases the old session; the new one prepares, starts at the stored volume and is the only live session |
| `CoordinatorProperties.SwitchStationScenario` | app/src/main/java/com/example/k2025_03_25_basic_radio/RadioService.kt:63-193 | play A and prepare: A playing; play A again: A paused; play B and prepare: B playing with A's session released |
| `Bridge.RadioViewModel.constructor` | app/src/main/java/com/example/k2025_03_25_basic_radio/RadioViewModel.kt:17-20 | no service, not bound, mirror `(null, false, 0.5)` |
| `Bridge.RadioViewModel.OnServiceConnected` | app/src/main/java/com/example/k2025_03_25_basic_radio/RadioViewModel.kt:78-83 | keeps the service, sets bound, and copies the service's state into the mirror |
| `Bridge.RadioViewModel.OnServiceDisconnected` | app/src/main/java/com/example/k2025_03_25_basic_radio/RadioViewModel.kt:85-88 | clears the service and the bound flag |
| `Bridge.RadioViewModel.UpdateStateFromService` | app/src/main/java/com/example/k2025_03_25_basic_radio/RadioViewModel.kt:132-138 | mirror := the service's state when a service is held, unchanged otherwise |
| `Bridge.RadioViewModel.PlayStation` | app/src/main/java/com/example/k2025_03_25_basic_radio/RadioViewModel.kt:105-110 | posts a play to the held service and refreshes the mirror; with no service nothing happens |
| `Bridge.RadioViewModel.TogglePlayPause` | app/src/main/java/com/example/k2025_03_25_basic_radio/RadioViewModel.kt:112-123 | posts pause when the service reports playing, resume otherwise; with no service nothing happens |
| `Bridge.RadioViewModel.SetVolume` | app/src/main/java/com/example/k2025_03_25_basic_radio/RadioViewModel.kt:125-130 | posts the volume to the held service and refreshes the mirror; with no service nothing happens |
| `Bridge.RadioViewModel.OnCleared` | app/src/main/java/com/example/k2025_03_25_basic_radio/RadioViewModel.kt:140-146 | unbinds once if bound, then clears the flag; when not bound it changes nothing |
| `Bridge.ClearTwice` | app/src/main/java/com/example/k2025_03_25_basic_radio/RadioViewModel.kt:140-146 | clearing twice makes exactly one unbind call |
| `Bridge.CommandsBeforeBindingAreDropped` | app/src/main/java/com/example/k2025_03_25_basic_radio/RadioViewModel.kt:105-130 | commands given before the service connects reach nothing and leave the initial mirror |
| `InActivity.Played` | app/src/main/java/com/example/k2025_03_25_basic_radio/MainActivity.kt:83-103 | `playRadio` releases the old player before creating the new one, so exactly the new one is live, or none when setup throws; the UI state is untouched |
| `InActivity.Execute` | app/src/main/java/com/example/k2025_03_25_basic_radio/MainActivity.kt:48-77 | every closure keeps at most one live session |
| `InActivity.Destroyed` | app/src/main/java/com/example/k2025_03_25_basic_radio/MainActivity.kt:121-126 | teardown leaves no live session and no player reference |
| `InActivity.Apply` | app/src/main/java/com/example/k2025_03_25_basic_radio/MainActivity.kt:48-126 | every outside input keeps at most one live session |
| `InActivity.Post` | app/src/main/java/com/example/k2025_03_25_basic_radio/MainActivity.kt:49 | a post is dropped exactly when the looper has quit (`quitSafely` at line 125); otherwise it is the one closure |
| `InActivity.Enqueue` | app/src/main/java/com/example/k2025_03_25_basic_radio/MainActivity.kt:67 | posting from a handler appends the closure at the back and keeps what is queued in front of it |
| `InActivity.RunHead` | app/src/main/java/com/example/k2025_03_25_basic_radio/MainActivity.kt:35-36 | a turn of the handler thread runs the oldest closure as `Execute` says and removes just it from the queue; the invariant is kept |
| `InActivity.MainActivity.constructor` | app/src/main/java/com/example/k2025_03_25_basic_radio/MainActivity.kt:35-42 | no station, not playing, volume 0.5, no player, nothing queued |
| `InActivity.MainActivity.PostCommand` | app/src/main/java/com/example/k2025_03_25_basic_radio/MainActivity.kt:49 | `handler.post` appends, or drops once the looper has quit |
| `InActivity.MainActivity.OnStationSelected` | app/src/main/java/com/example/k2025_03_25_basic_radio/MainActivity.kt:48-49 | the station handler only posts |
| `InActivity.MainActivity.OnVolumeChanged` | app/src/main/java/com/example/k2025_03_25_basic_radio/MainActivity.kt:60-65 | the volume state changes at once and the player update is posted |
| `InActivity.MainActivity.OnPlayPauseToggle` | app/src/main/java/com/example/k2025_03_25_basic_radio/MainActivity.kt:66-67 | the toggle handler only posts |
| `InActivity.MainActivity.OnEngineEvent` | app/src/main/java/com/example/k2025_03_25_basic_radio/MainActivity.kt:91-98 | a live player's callback is queued; a released player raises nothing |
| `InActivity.MainActivity.PlayRadio` | app/src/main/java/com/example/k2025_03_25_basic_radio/MainActivity.kt:83-103 | the fields change as `Played` says and nothing is posted |
| `InActivity.MainActivity.PauseRadio` | app/src/main/java/com/example/k2025_03_25_basic_radio/MainActivity.kt:105-107 | pauses the referenced player only |
| `InActivity.MainActivity.Step` | app/src/main/java/com/example/k2025_03_25_basic_radio/MainActivity.kt:49-76 | the handler runs the oldest closure as the functional model says and keeps the invariant |
| `InActivity.MainActivity.Run` | app/src/main/java/com/example/k2025_03_25_basic_radio/MainActivity.kt:50-98 | each closure body changes the fields as `Execute` says |
| `InActivity.MainActivity.OnPause` | app/src/main/java/com/example/k2025_03_25_basic_radio/MainActivity.kt:109-112 | pauses the player only |
| `InActivity.MainActivity.OnResume` | app/src/main/java/com/example/k2025_03_25_basic_radio/MainActivity.kt:114-119 | starts the player only |
| `InActivity.MainActivity.OnDestroy` | app/src/main/java/com/example/k2025_03_25_basic_radio/MainActivity.kt:121-126 | releases and nulls the player, quits the looper |
| `InActivityProperties.SelectWhilePlayingPauses` | app/src/main/java/com/example/k2025_03_25_basic_radio/MainActivity.kt:50-52 | selecting the playing station pauses the player and clears `isPlaying`; station, player and session counter unchanged |
| `InActivityProperties.SelectStartsAtOnce` | app/src/main/java/com/example/k2025_03_25_basic_radio/MainActivity.kt:53-57 | otherwise the old player is released, a new one captures the current volume, the station is set and `isPlaying` is true at once, even when setup throws |
| `InActivityProperties.ToggleNegates` | app/src/main/java/com/example/k2025_03_25_basic_radio/MainActivity.kt:75 | the toggle always negates `isPlaying` |
| `InActivityProperties.ToggleWhilePlayingPauses` | app/src/main/java/com/example/k2025_03_25_basic_radio/MainActivity.kt:68-69 | toggling while playing pauses the player and changes nothing else |
| `InActivityProperties.ToggleWhilePausedReloads` | app/src/main/java/com/example/k2025_03_25_basic_radio/MainActivity.kt:71-73 | toggling while paused starts a new player for the current station with the current volume |
| `InActivityProperties.ToggleWithoutStationPlays` | app/src/main/java/com/example/k2025_03_25_basic_radio/MainActivity.kt:71-75 | with no station the toggle only sets `isPlaying` |
| `InActivityProperties.PreparedAppliesCapturedVolume` | app/src/main/java/com/example/k2025_03_25_basic_radio/MainActivity.kt:91-94 | the prepared listener applies the captured volume and starts the player; `isPlaying` unchanged |
| `InActivityProperties.ErrorLeavesUiState` | app/src/main/java/com/example/k2025_03_25_basic_radio/MainActivity.kt:95-98 | the error listener leaves station, `isPlaying` and volume as they were |
| `InActivityProperties.VolumeChangeIsImmediate` | app/src/main/java/com/example/k2025_03_25_basic_radio/MainActivity.kt:60-62 | a volume change updates the state at once and posts exactly one player update |
| `InActivityProperties.ApplyVolumeReachesPlayer` | app/src/main/java/com/example/k2025_03_25_basic_radio/MainActivity.kt:62-64 | the posted update sets the live player's gain and nothing in the UI state |
| `InActivityProperties.LifecycleLeavesUiState` | app/src/main/java/com/example/k2025_03_25_basic_radio/MainActivity.kt:109-119 | `onPause`/`onResume` pause or start the player and touch neither `isPlaying`, the station nor the queue |
| `InActivityProperties.DestroyReleasesPlayer` | app/src/main/java/com/example/k2025_03_25_basic_radio/MainActivity.kt:121-126 | teardown leaves no live session and no player reference |
| `InActivityProperties.TraceKeepsConsistent` | app/src/main/java/com/example/k2025_03_25_basic_radio/MainActivity.kt:85-87 | at most one session is live after any run from a consistent state |
| `InActivityProperties.NoPlayerAfterTeardown` | app/src/main/java/com/example/k2025_03_25_basic_radio/MainActivity.kt:121-125 | after teardown with no selection or toggle pending, no player ever becomes live again |
| `InActivityProperties.VolumeChangeDuringPrepareIsOverwritten` | app/src/main/java/com/example/k2025_03_25_basic_radio/MainActivity.kt:60-64 | a volume change made while the player prepares is overwritten by the volume captured at selection |
| `InActivityProperties.ResumeRestartsUserPausedPlayer` | app/src/main/java/com/example/k2025_03_25_basic_radio/MainActivity.kt:114-119 | after the user pauses, `onPause` then `onResume` makes the player run again while `isPlaying` stays false |

## Left out

- Player internals are not modelled: the data source, `prepareAsync`, buffering, and the platform player's own state machine. So are the exceptions the platform would raise for a call made in the wrong player state. A session is an opaque id, and its prepared, error and completion events are inputs.
- Calls on a released player, reachable through the stale handle left by a setup exception, are treated as doing nothing. On the platform they throw outside the `try` block.
- The half-built player that exists when setup throws is dropped without `release()`. It never prepares and raises no events, so it is not counted as a live session.
- Notification code (`createNotificationChannel`, `startForegroundWithNotification`, `updateNotification`, `stopForeground`) is platform UI. Only a `foreground` flag records it.
- Audio-focus OS calls and the `Build.VERSION.SDK_INT` branches are reduced to a `focusRequested` flag plus the mapping from focus code to command. Whether the OS grants focus, and the losses it sends to earlier focus requests, are not modelled.
- The `onCompletion` argument of `playRadio` is not modelled. Its default does nothing, and no caller passes one.
- All Compose UI is left out, including `RadioUI.kt` and the composables in `MainActivity.kt`. So are the hard-coded station lists.
- Volume is an unbounded real number. The code only stores and forwards the Float, so float semantics do not matter.
- Concurrency between the main thread and the handler thread is not modelled. Outside inputs, lifecycle hooks and `getCurrentState` reads are each treated as atomic steps between handler turns.
- The view-model's coroutine and binder timing is not modelled. Each `launch` runs at once and in order. The model does not claim the mirror equals the service state after a command: the service has not yet run the posted closure at that point.
- `bindService`/`startService` and the platform's binder are left out. Connection and disconnection are inputs.
