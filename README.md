# soundworks-binaural: gesture controller, audio player and orientation calibration

This project models three sequential pieces of a distributed spatial-audio
installation in Dafny and proves properties of them.

- **The server's gesture controller** (`server_perform.dfy`, module
  `ServerPerformance`). It has three pure helpers:
  - the aspect-ratio-corrected distance;
  - the velocity between two input samples;
  - the distance scaling `min(d / m, 1)`.

  It also has the performance manager's `touchHandler`, modelled as the class
  `ServerPerform`. The class holds the soloist list, the playing clients with
  their positions, the client records with their input histories, and an
  append-only log of the `update_synth` messages emitted. A touch start
  resets the soloist's history. A touch move appends to it. Either one then
  sends every playing client its scaled distance to the finger, in list
  order, and sends the room the minimum of 1 and those distances (the
  "subwoofer distance"). A touch end sends the stop values. Events from a
  socket that is no longer a soloist are ignored.
- **The client's audio player** (`audio_player.dfy`, module `AudioPlayback`).
  It is the class `AudioPlayer` with its two maps, `srcMap` and `gainMap`,
  keyed by buffer. `PlaySound` clamps the gain to `min(|level|, 3)` and
  records the new source and gain nodes under the buffer. The source's end
  event removes the buffer's entries from both maps.
- **The player's orientation calibration** (`player_experience.dfy`, module
  `PlayerClient`). It is the class `PlayerExperience` with its two arrays,
  `orientationOffset` and `ori`. The device-orientation listener makes the
  raw azimuth relative to the offset, stores it, and sends
  `[-rel, 0, -1]` to the spatial sources handler. The touch-end listener
  copies `ori[0]` into the offset. `init` starts the first buffer looping.

Numbers are `real`. `Math.sqrt` is a library call: the model receives it as a
function value `sqrt` with one requirement, `IsRoot`. That requirement says
`sqrt(x)` is non-negative and squares back to `x`. Monotonicity,
`sqrt(0) = 0` and `sqrt(r * r) = r` are proved from it. Audio-graph nodes are
abstract ids. The calls on the spatial sources handler and the emitted socket
messages are appended to logs (`spatCalls`, `log`).
`common.dfy` (module `Common`) holds what both sides share: `Math.abs`, the
buffer id type and an `Option` type for JavaScript's `undefined`.

Points where the model follows the code closely:

- On a touch end the code sends distance 1 and intensity 0 to the performance
  channel and to the room (`ServerPerform.es6.js:68-69`, where `s` is 0).
- The code does not tolerate a missing client record (line 60). In the model,
  every soloist has a client record; this is part of `ServerPerform.Valid()`.
- A client's input history is set only by a touch start (line 88). Until
  then it is whatever the client record was created with, modelled as
  `None` (undefined). A touch move on an undefined history throws at the
  `push` (line 73): nothing is stored and nothing is emitted.
- A touch move on an empty history first appends the sample. Reading the
  missing second-to-last sample (line 77) then throws a TypeError, so
  nothing is emitted. The model returns `Threw` with the history already
  extended.

## Model

| member | source | states |
|---|---|---|
| `ServerPerformance.RootMonotone` | src/server/ServerPerform.es6.js:8-10 | the square root used by the distance is monotone on the non-negative reals |
| `ServerPerformance.RootOfSquare` | src/server/ServerPerform.es6.js:8-10 | the root of `r * r` is `r` for `r >= 0`, which gives exact distances in the worked examples |
| `ServerPerformance.NormalizedSquare` | src/server/ServerPerform.es6.js:7-10 | the squared normalised distance (the branch on `w / h < 1` that rescales x or y) is non-negative |
| `ServerPerformance.NormalizedDistance` | src/server/ServerPerform.es6.js:6-11 | the distance is non-negative and its square is the aspect-corrected sum of squared differences |
| `ServerPerformance.NormalizedSquareNeg` | src/server/ServerPerform.es6.js:7-10 | negating both differences leaves the squared normalised distance unchanged, in both branches |
| `ServerPerformance.NormalizedDistanceSymmetric` | src/server/ServerPerform.es6.js:6-11 | the distance from `a` to `b` equals the distance from `b` to `a` |
| `ServerPerformance.NormalizedDistanceSelf` | src/server/ServerPerform.es6.js:6-11 | a point is at distance 0 from itself |
| `ServerPerformance.NormalizedDistanceSquareArea` | src/server/ServerPerform.es6.js:6-11 | on an area with `w == h` the normalised distance is the plain Euclidean distance |
| `ServerPerformance.Velocity` | src/server/ServerPerform.es6.js:13-15 | the velocity is non-negative, and velocity times the absolute time difference is the normalised distance |
| `ServerPerformance.VelocityHalvesWhenTimeDoubles` | src/server/ServerPerform.es6.js:13-15 | for the same two positions, doubling the elapsed time halves the velocity |
| `ServerPerformance.ScaleDistance` | src/server/ServerPerform.es6.js:17-19 | the result is `min(d / m, 1)`: at most 1 and at most `d / m`, equal to `d / m` whenever it is below 1, and at least 0 for `d >= 0` and `m > 0` |
| `ServerPerformance.ScaleDistanceMonotone` | src/server/ServerPerform.es6.js:17-19 | for `m > 0` the scaled distance is non-decreasing in `d` |
| `ServerPerformance.Intensity` | src/server/ServerPerform.es6.js:78 | the result is `min(1, v / 2)`: at most 1 and at most `v / 2`, exactly `v / 2` below 1, and non-negative for `v >= 0` |
| `ServerPerformance.PlayerDistance` | src/server/ServerPerform.es6.js:80 | a playing client's scaled distance to the finger (radius 0.3) lies in [0, 1] |
| `ServerPerformance.MoveIntensity` | src/server/ServerPerform.es6.js:77-78 | the move intensity, taken from the last two history entries, lies in [0, 1] |
| `ServerPerformance.Fanout` | src/server/ServerPerform.es6.js:79-83 | there is exactly one unicast per playing client, in list order, each carrying that client's scaled distance and the given intensity |
| `ServerPerformance.SubDistance` | src/server/ServerPerform.es6.js:92-96 | `dSub` lies in [0, 1], is at most every client's scaled distance, and is either 1 or one of them: the minimum of 1 and all unicast distances |
| `ServerPerformance.StartExample` | src/server/ServerPerform.es6.js:92-94 | on a unit square, a client at (1, 0) and a finger at (0.5, 0) give the scaled distance 1 (clamped) |
| `ServerPerformance.MoveExample` | src/server/ServerPerform.es6.js:73-78 | on a unit square, samples (0, 0) at time 0 and (0, 1) at time 2 give velocity 1/2 and intensity 0.25 |
| `ServerPerformance.ServerPerform.constructor` | src/server/ServerPerform.es6.js:22-28 | the finger radius is 0.3 and the message log starts empty |
| `ServerPerformance.ServerPerform.SendToPlaying` | src/server/ServerPerform.es6.js:79-83 | the loop appends exactly `Fanout(...)` to the log and returns `SubDistance(...)` |
| `ServerPerformance.ServerPerform.TouchHandler` | src/server/ServerPerform.es6.js:45-102 | a non-soloist's event changes nothing. Touch end logs performance `(1, 0)` and room `(finger, 1, 0)` and keeps the history. Touch start sets the history to the one new sample. Touch move appends one sample to a defined history and keeps the earlier ones. Start and move then log the fan-out and one room message carrying `dSub`, with intensity 0 on start and `MoveIntensity` on move. A move on an undefined history throws and changes nothing; a move on an empty history throws after storing the sample and emits nothing |
| `AudioPlayback.ClampGain` | src/client/player/AudioPlayer.js:30 | the gain is `min(abs(soundLvl), 3.0)`: in [0, 3], at most `abs(soundLvl)`, and equal to it or to 3 |
| `AudioPlayback.ClampGainKeepsLevelsInRange` | src/client/player/AudioPlayer.js:30 | a level in [-3, 3] keeps its magnitude |
| `AudioPlayback.AudioPlayer.constructor` | src/client/player/AudioPlayer.js:7-19 | both maps start empty and the master gain is 1.0 |
| `AudioPlayback.AudioPlayer.PlaySound` | src/client/player/AudioPlayer.js:21-42 | both maps map `buffer` to newly created nodes whose ids `nextNode` and `nextNode + 1` no existing node has. The source is of `buffer` with the given loop flag, which defaults to false. The gain is `ClampGain(soundLvl)`. Every other entry is unchanged. The key sets stay equal, and the map grows by one only when the buffer was not present |
| `AudioPlayback.AudioPlayer.OnEnded` | src/client/player/AudioPlayer.js:44-51 | `buffer` leaves both maps, every other entry is unchanged, and the size drops by one exactly when the buffer was present |
| `AudioPlayback.PlayAll` | src/client/player/AudioPlayer.js:40-41 | after playing a list of buffers, the keys are the old keys plus those buffers |
| `AudioPlayback.EndAll` | src/client/player/AudioPlayer.js:48-49 | after an end event for each buffer of a list, the keys are the old keys minus those buffers |
| `AudioPlayback.PlayThenEndAll` | src/client/player/AudioPlayer.js:40-49 | playing N buffers and then ending each leaves no entry for any of them; a player that started empty is empty again |
| `AudioPlayback.ReplayThenFirstEnds` | src/client/player/AudioPlayer.js:21-49 | playing a buffer twice hands out source ids `n` and `n + 2`; the first source's end event, keyed by the buffer, finds and removes the entry of the second source (`removed == second`, `first != removed`), which is still playing; afterwards `nextNode` has advanced by 4 and both maps equal the old maps without the buffer |
| `Common.Abs` | src/server/ServerPerform.es6.js:14 | `Math.abs` (also `AudioPlayer.js:30`): the result is non-negative and is `x` or `-x` |
| `PlayerClient.Observe` | src/client/player/PlayerExperience.js:70-71 | a raw azimuth sample keeps the offset and stores the relative azimuth, which added to the offset gives back the raw azimuth |
| `PlayerClient.ListenerView` | src/client/player/PlayerExperience.js:75 | the listener orientation sent has three components: the negated relative azimuth, 0 and -1 |
| `PlayerClient.Relative` | src/client/player/PlayerExperience.js:70 | the relative azimuth plus the offset gives back the raw azimuth |
| `PlayerClient.FirstBuffer` | src/client/player/PlayerExperience.js:44 | the buffer played by `init` is `buffers[0]`, or undefined when the list is empty |
| `PlayerClient.PlayerExperience.constructor` | src/client/player/PlayerExperience.js:32-33 | `orientationOffset` and `ori` start as two distinct arrays `[0, 0, 0]` |
| `PlayerClient.PlayerExperience.Init` | src/client/player/PlayerExperience.js:39-45 | a fresh spatial sources handler receives one `playSound` of `buffers[0]` at `[1, 0, 1]`, slot 0, looping |
| `PlayerClient.PlayerExperience.OnDeviceOrientation` | src/client/player/PlayerExperience.js:68-76 | `data[0]` and `ori[0]` become `a - offset[0]` and the listener receives `[-(a - offset[0]), 0, -1]`. Only index 0 of `data` and `ori` changes, and the offset does not change |
| `PlayerClient.PlayerExperience.OnTouchEnd` | src/client/player/PlayerExperience.js:82-84 | `offset[0]` becomes `ori[0]`, nothing else changes, and a repeat with no sample in between changes nothing |
| `PlayerClient.ResetAsWritten` | src/client/player/PlayerExperience.js:83 | the reset copies the relative azimuth into the offset |
| `PlayerClient.ResetAsWrittenRecentresOnlyFromZero` | src/client/player/PlayerExperience.js:70-83 | after a sample and the reset as written, the same raw azimuth reads as the OLD offset, so it reads 0 only when that offset was 0 |
| `PlayerClient.ResetAsWrittenCounterexample` | src/client/player/PlayerExperience.js:70-83 | samples 10, touch, 30, touch: holding the device at 30 reads 10 |
| `PlayerClient.ResetCorrected` | src/client/player/PlayerExperience.js:83 | the corrected reset stores the raw azimuth (relative plus offset) as the offset |
| `PlayerClient.ResetCorrectedRecentres` | src/client/player/PlayerExperience.js:70-83 | with the corrected reset, holding the device where it was at the touch reads 0, whatever the earlier calibration |

## Findings

| source | as written | input that shows it | evidently intended | confidence | as-written member | corrected member |
|---|---|---|---|---|---|---|
| src/client/player/PlayerExperience.js:83 | touch end copies the relative azimuth `ori[0]` into the offset | samples 10, touch, 30, touch, then the device held at 30: the listener reads 10 | "Touch to reset orientation" (line 47): the heading at the touch should read 0 afterwards, so the offset should become the raw azimuth `ori[0] + offset[0]` | medium, not executed | `PlayerClient.ResetAsWrittenCounterexample` | `PlayerClient.ResetCorrectedRecentres` |

The class `PlayerExperience` keeps the code as written; its `OnTouchEnd`
is tied to `ResetAsWritten` through `Calib()`. The corrected reset is
defined beside it on the same calibration state.

## Left out

- Socket wiring and the framework's performance manager (`ServerPerform.es6.js:1-2, 30-43`) are not modelled. The `ioServer` and `socket.emit` transport is replaced by the message log.
- `Math.sqrt` is not computed. It is the parameter `sqrt`, known only through `IsRoot`.
- Floating point is not modelled. Values are `real`, the area's height and width must be non-zero, and the scaling radius must be non-zero. IEEE `Infinity` and `NaN` do not arise.
- `ServerPerformance.ServerPerform.TouchHandler`: a precondition excludes a touch move whose timestamp equals the previous sample's. In JavaScript that move would send intensity 1 (from `Infinity`) or `NaN`.
- The topology's height and width are constants of the model. The soloist list and the playing list are fixed during a call. The framework that updates them between calls is not part of this model.
- The concurrency of several clients' handlers is not modelled. Each call of `TouchHandler` runs to completion on its own.
- Audio-graph calls are not modelled: `createBufferSource`, `createGain`, `connect`, `start` and the shared destination (`AudioPlayer.js:14-18, 24, 29, 33-37`). Nodes are abstract ids from a counter, with the attributes the player sets.
- The end event's timing is not modelled. It is delivered by the audio backend, so `OnEnded` may be called for any buffer at any time; deleting a missing key changes nothing.
- The console logging in `AudioPlayer.js:50` is not modelled.
- The view, template, `TouchSurface`, `innerHTML` display of the rounded azimuth (`PlayerExperience.js:73`) and service `require`s of `PlayerExperience` are not modelled.
- The `motionInput` availability check and listener registration in `start` are not modelled. The listeners are the methods `OnDeviceOrientation` and `OnTouchEnd`, called after `Init`.
- `SpatSourcesHandler.js` is an opaque collaborator: only the calls made on it are recorded. Its panner, HRTF loading and per-call animation-frame update are not part of this model.
- `index.js` and `BinauralExperience.js` are not modelled; they hold no logic of their own.
- `SpatSourcesHandler._updateBinauralPanner` requests an animation frame on every call (`SpatSourcesHandler.js:70-74`); the rendering it triggers is not part of this model.
