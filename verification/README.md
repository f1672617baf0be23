# Retro television: controller state machine and screen, in Dafny

This project models the core of a simulated retro television web application. A controller holds the
set's state: power, channel position, display state (OFF, STATIC, TUNING, PLAYING), volume and the
mute flag. Remote-control presses drive it, and so do the timers those presses set. A screen derives
what is visible from the display state and an error flag. It also chooses a streaming backend
whenever the picture appears. A static table lists the nine channels.

Modules:

- `Wrappers` (wrappers.dfy): `Option`, standing for `undefined`, `null` and "not found".
- `Types` (types.dfy): `Channel`, `TVState` and `ProgramInfo`, as declared in types.ts.
- `Channels` (channels.dfy): the channel table, `findIndex` by id, and `getChannelById`.
- `Decimal` (decimal.dfy): integer `toString` and `padStart`, which the OSD channel label uses.
- `App` (app.dfy): the controller of App.tsx.
- `Screen` (screen.dfy): the rendering rules and the two effects of components/Screen.tsx.
- `Television` (television.dfy): the controller rendering the screen, with one invariant over both.

Timers. Real time becomes a clock `now` in milliseconds plus a list of pending timers, kept in the
order they were set. `Fire` runs the timer with the earliest deadline. Timers with equal deadlines
run in the order they were set. That is the order browsers use; the HTML standard's timer
algorithm guarantees it only for timers set at the same instant with the same delay. `Elapse(ms)`
lets time pass but stops at the next deadline, so no timer is ever skipped. A nested `setTimeout`
is queued only when its outer callback runs. So power-on queues `SetTuning` (due in 1000 ms), and
running it queues `SetPlaying` (1500 ms later). A channel change queues `SetIndex(i)` (400 ms), and
running that queues `SetPlaying` (600 ms later). Power-off cancels nothing, exactly as the code
is written.

Screen. The screen re-renders after every controller step. Each effect whose dependencies changed
runs its cleanup and then its body. Those dependencies are `[channel.url, tvState]` for playback
and `[channel, tvState]` for the guide. Reports from the outside arrive as events: a fatal error
from the streaming library, an error from the video element, the guide text, and the OSD hide
timer. The browser's capabilities are a parameter: `Hls.isSupported()`, and whether `canPlayType`
accepts the HLS MIME type.

The channel wrap is not reduction modulo the channel count in general. The code sends every
negative target to the last position and every target at or past the end to the first. It agrees
with reduction modulo the count on [-1, 9], which contains every target the up/down keys produce
(`App.WrapIsModular`).

## Model

| member | source | states |
|---|---|---|
| Channels.FindIndex | App.tsx:75 | the position found holds the id and no earlier position does; None exactly when no channel holds the id |
| Channels.GetChannelById | services/channels.ts:60-62 | a channel found has the requested id and is in the table; undefined exactly when no channel has that id |
| Channels.TableShape | services/channels.ts:3-58 | the table holds 9 channels, and the channel at position i has id i + 1 |
| Channels.IdsDistinct | services/channels.ts:3-58 | channel ids are pairwise distinct, so a lookup by id has at most one answer |
| Channels.DigitLookup | App.tsx:71-79 | digits 1..9 find positions 0..8; 0 and every other number find nothing |
| App.Init | App.tsx:8-12 | the set starts off, on the first channel, at volume 50, unmuted, with no timer pending |
| App.RunTimer | App.tsx:36-65 | a callback runs at its deadline: the warm-up callback shows TUNING and sets the PLAYING timer 1500 ms on; the swap callback moves the index and sets the PLAYING timer 600 ms on; the PLAYING callback shows PLAYING and sets nothing |
| App.FireNextRunsEarliest | App.tsx:36-65 | the timer that runs is the one with the least deadline, the earliest set among equals; the clock moves to its deadline, the other timers stay pending in their order, and the nested timer goes to the back |
| App.HandlePower | App.tsx:25-45 | power-off gives powerOn false and OFF at once and keeps every pending timer; power-on gives STATIC and queues the warm-up timer 1000 ms ahead |
| App.WrapIndex | App.tsx:50-53 | every target lands on a valid position; valid targets stay, negative ones go to the last position, ones at or past the end go to the first |
| App.WrapIsModular | App.tsx:51-53 | on targets in [-1, channel count] the wrap is reduction modulo the channel count |
| App.ChangeChannel | App.tsx:47-66 | ignored while off; otherwise STATIC at once with the index unchanged, and a swap timer for the wrapped target 400 ms ahead |
| App.UpDownTargets | App.tsx:68-69 | up targets (index + 1) mod count and down targets (index - 1) mod count, both taken from the index at press time |
| App.HandleNumber | App.tsx:71-79 | ignored while off or when no channel has the id; otherwise a change to a position holding that id |
| App.NumberKeys | App.tsx:71-79 | while on, digit d in 1..9 changes to position d - 1 and every other number changes nothing |
| App.VolumePresses | App.tsx:81-82 | volume up adds 10 up to the cap of 100 and volume down subtracts 10 down to 0; nothing else changes, powered on or not |
| App.MuteInvolution | App.tsx:83 | mute flips only the mute flag, powered on or not, and two presses restore the state |
| App.ChannelKeysIgnoredWhenOff | App.tsx:47-79 | while off, channel up, channel down and every number key leave the state unchanged |
| App.RunPreservesValid | App.tsx:8-83 | under any events the volume stays in [0, 100] on multiples of 10, the position stays valid, a powered set is never OFF, and no pending timer is overdue |
| App.ReachableValid | App.tsx:8-12 | every state reachable from the initial one satisfies that invariant |
| App.PowerOnSequence | App.tsx:30-43 | power-on shows STATIC, then TUNING after 1000 ms, then PLAYING 1500 ms later, in that order |
| App.ChannelChangeSequence | App.tsx:55-65 | a change shows STATIC with the old index, moves the index after 400 ms, then shows PLAYING 600 ms later |
| App.PressChannelUp | App.tsx:68 | a channel-up press is a change towards the position after the one current at press time |
| App.DoubleChannelUpMovesOnce | App.tsx:59-69 | two channel-up presses less than 400 ms apart, both before the first swap timer runs, queue the same target twice; once every timer has run the set is PLAYING one channel on, with nothing pending |
| App.TuningCutsChannelChangeShort | App.tsx:36-66 | a channel change started while the warm-up's PLAYING timer is pending is cut short: PLAYING shows on the old channel right after STATIC, and the index moves later while PLAYING, because changeChannel cancels no timer |
| App.PressQueuesOnlyFirstStages | App.tsx:25-79 | a press adds at most one timer and never a SetPlaying, so every SetPlaying timer is set by a warm-up or swap callback |
| App.PoweredSetIsNotOff | App.tsx:25-66 | in every reachable state a powered set is not OFF (the converse fails, see Findings) |
| App.OffIsNotStable | App.tsx:26-29 | as written: after power on and power off, the pending timers take the powered-off set to TUNING and then to PLAYING |
| App.SwapRunsWhileOff | App.tsx:26-29 | as written: a swap timer set before power-off still moves the channel while the set is off |
| App.StepCancelling | App.tsx:26-29 | corrected power-off: OFF with every pending timer cleared; every other event as before |
| App.CancellingRunKeepsOffQuiet | App.tsx:26-43 | with the corrected power-off, a set that is off stays OFF with nothing pending, whatever events follow |
| App.CancellingOffIsStable | App.tsx:26-43 | from the initial state under the corrected power-off, powered-off means OFF and no timer pending |
| Screen.InitialView | components/Screen.tsx:15-18 | the screen starts with no error, no streaming instance, no video source, no program info and the OSD hidden |
| Screen.TopLayer | components/Screen.tsx:116-141 | video on top exactly for PLAYING without error; black exactly for OFF; noise otherwise, captioned NO SIGNAL exactly when the error flag is up and TUNING... otherwise |
| Screen.OneLayerOnTop | components/Screen.tsx:116-130 | video shows exactly when neither static nor off, noise exactly when static and not off, black exactly when off |
| Screen.OsdShown | components/Screen.tsx:158 | the OSD is rendered exactly when the set is not OFF and the OSD flag is up |
| Screen.MuteCorner | components/Screen.tsx:184-187 | the corner is opaque exactly when the set is on and muted or at zero volume; MUTE shows exactly when on and muted |
| Screen.NothingOverlaidWhenOff | components/Screen.tsx:158-188 | while OFF neither the OSD nor the mute corner is rendered |
| Screen.ChannelLabel | components/Screen.tsx:162 | "CH " and the id's decimal digits padded with zeros to width 2: ids 0..9 give "CH 0d", ids of 10 and above their digits with no leading zero, negative ids "CH -" and the digits of the magnitude; for ids of 0 and above the digits read back as the id |
| Decimal.PadStart | components/Screen.tsx:162 | padding keeps the string as its suffix, reaches the width, and fills only with the pad character |
| Decimal.NatToStringRoundTrip | components/Screen.tsx:162 | the decimal digits written for a number read back as that number |
| Screen.SelectBackend | components/Screen.tsx:39-73 | the streaming library exactly when supported; native playback exactly when it is not but the HLS type is accepted; none otherwise |
| Screen.PlaybackCleanup | components/Screen.tsx:76-81 | after cleanup no streaming instance is held |
| Screen.PlaybackEffect | components/Screen.tsx:21-82 | OFF drops the instance and the video source; PLAYING clears the error flag unless no backend exists and loads the channel into the chosen backend; STATIC and TUNING change nothing |
| Screen.HlsFatalError | components/Screen.tsx:56-61 | a fatal error from a live instance raises the error flag and destroys the instance, whose reference stays held |
| Screen.MediaError | components/Screen.tsx:70 | an error from the video element raises the flag while the native path has a source set |
| Screen.GuideEffect | components/Screen.tsx:93-113 | entering PLAYING drops the program info, shows the OSD and arms its hide timer; other states change nothing |
| Screen.GuideReply | components/Screen.tsx:99-105 | the guide text replaces the program info and nothing else |
| Screen.OsdTimeout | components/Screen.tsx:109-111 | a pending hide timer hides the OSD; a cleared one does nothing |
| Screen.Commit | components/Screen.tsx:21-113 | a re-render with unchanged dependencies changes nothing; leaving PLAYING drops the instance; entering OFF drops the source; entering PLAYING sets the error flag exactly when no backend exists and resets the program info and OSD |
| Television.SetRunKeepsInv | components/Screen.tsx:21-82 | under any events the screen's playback state stays consistent with the controller's display state, channel and the browser's capabilities |
| Television.Reachable | components/Screen.tsx:25-82 | no instance is held unless PLAYING, none and no source while OFF; in PLAYING with the streaming library, the error flag is up exactly when the instance was destroyed by a fatal error |
| Television.EnteringPlaying | components/Screen.tsx:36-97 | each entry to PLAYING clears the error unless no backend exists, drops the program info and shows the OSD |
| Television.NoSignalDuringRetune | components/Screen.tsx:116-135 | after a fatal stream error, a channel change shows noise captioned NO SIGNAL, not TUNING... |
| Television.StreamPlaysWhileOff | App.tsx:26-29 | as written: a set switched off during warm-up ends up powered off yet PLAYING, holding a live streaming instance with the video on top |

## Findings

| source | as written | input that shows it | evidently intended | confidence | as-written member | corrected member |
|---|---|---|---|---|---|---|
| App.tsx:26-29 | power-off sets OFF but clears none of the timers set by power-on or by a channel change | power on, then power off before 1000 ms pass, then let the timers run: the power is off, yet the display goes to TUNING and then to PLAYING, and the stream loads | power-off cancels the pending timers, so a set that is off stays OFF until the next power-on | high; not executed | App.OffIsNotStable | App.CancellingRunKeepsOffQuiet |

The composed `Television` model keeps the controller as written. It does so to show what the
finding does to the screen: a live streaming instance and a visible video layer while the power
is off (`Television.StreamPlaysWhileOff`). The corrected controller is `App.StepCancelling` with
`App.RunCancelling`.

## Left out

- The static-noise `Audio` object and its play and pause calls (App.tsx:15-22): media output with no effect on state.
- `video.volume = volume / 100` and `video.muted` (components/Screen.tsx:85-90): a floating-point side effect on the DOM.
- The internals of the streaming library and the video element: `loadSource`, `attachMedia`, autoplay on `MANIFEST_PARSED` and `loadedmetadata`, `pause`, `load`. Only the backend choice, the held instance, the `src` attribute and the error flag are modelled.
- The native path adds a new `error` listener on every entry to PLAYING and never removes one. The model treats this as a single listener that is active while a source is set.
- `if (!video) return` (components/Screen.tsx:23): the video ref is always set once the screen has mounted.
- services/geminiService.ts: a network call to an external text service. The guide text enters as the `Guide(info)` event, whenever the request completes, with `startTime` already formatted. `toLocaleTimeString` is left out.
- The OSD hide timer's 8 seconds of real time. Its firing is the `OsdHide` event, which has an effect only while the timer is armed.
- components/Remote.tsx: markup only. It emits the digits 0 to 9, and the model accepts any number.
- Everything rendered with CSS: the LED, the OSD volume text, the channel-list hint, animations. Only which layer is on top, the OSD, the mute corner and the channel label are modelled.
- Channel ids are modelled as integers. `toString` of a non-integral number is not modelled.
- Screen.ChannelLabel: the digits are exact decimal digits for every integer id. JavaScript's `toString` gives exact digits only below 2^53, shortest round-trip digits from 2^53 up to 10^21, and exponent form from 10^21 ("1e+21"). Only the table's ids 1..9 ever reach the label, so the model states nothing about those larger magnitudes.
- React scheduling: the updates of one handler or timer callback form one render. Effects run in declaration order after that render, and an update that sets an equal value does not re-render.
