# KeybindMonitor: a Dafny model of Loop's keyboard-chord state machine

Loop's `KeybindMonitor` taps global key events while Loop is open. It keeps a set
of currently pressed base key codes and, for every tapped event, decides whether to
swallow it (the callback returns `nil`) or forward it to the focused application. It
also posts one of two notifications: `forceCloseLoop` when Escape is held, or
`directionChanged` carrying the window action the held keys resolve to.

The model has two layers.

- `KeybindSpec` (keybind_spec.dfy) describes the monitor as a value `State`. The state
  holds `pressedKeys`, `lastKeyReleaseTime` in integer milliseconds,
  `canPassthroughSpecialEvents`, and one flag for each of the two event monitors.
  Each callback and lifecycle call is a function from the old state to a new state
  and a `Response`. A response is a `Verdict` (`Swallow` or `Forward`) plus the
  `Signal` posted (`NoSignal`, `ForceClose` or `DirectionChanged(action)`).
- `Monitor.KeybindMonitor` (keybind_monitor.dfy) is the class itself. Its methods
  update its fields in place with the source's guarded early returns. Each method is
  proved to produce the state and response that the `KeybindSpec` function gives.

`KeybindRuns` (keybind_runs.dfy) feeds sequences of events through the callbacks in
delivery order and proves what the pressed-key set and the release gate look like
afterwards. `KeyCodes` (keycodes.dfy) holds the virtual key codes and the
`NSEvent.ModifierFlags` bits the monitor uses:

- Escape is 0x35, Command 0x37, Shift 0x38, Option 0x3A and Function 0x3F.
- The globe key, 179, is the one special event.
- The flags are a 64-bit mask. Modifier tests first intersect it with
  `deviceIndependentFlagsMask`.

Three collaborators are not defined in the monitor: `baseKey`, `baseModifier` and
`WindowAction.getAction(for:)`. They are arbitrary total functions carried in an
`Env` value, so every property holds whatever they are. The window action is an
opaque type `Action`.

Some inputs are passed in as parameters:

- the accessibility permission status, to `Start`;
- the configured trigger keys (`Defaults[.triggerKey]`), to the flags callback;
- the current time, to each callback;
- whether an `NSEvent` could be built from the tapped event (`event: Option<KeyEvent>`).

### The release gate as written

In `performKeybind`, the comment says a release within 100 ms of the previous one
should return early. The code does the opposite (Loop/Managers/KeybindMonitor.swift:100-107).
A settling event is a key-up, or a flags change without Shift. When more than 0.1 s
has passed since `lastKeyReleaseTime`, a settling event returns `true` at once. It
posts nothing and does not update the timestamp. Only a settling event within 0.1 s
stores the current time and goes on to Escape and action resolution.

The model follows the code. A settling key-up that the gate absorbs is therefore
swallowed. The timestamp is set when the object is created and moves only while
settling events keep arriving within 0.1 s of it. `KeybindRuns.StaleGateIsPermanent`
proves the consequence. With a clock that does not run backwards, one event that
arrives more than 0.1 s late is enough: after it, no settling event ever reaches the
resolver again.

Two more facts about the code that the model keeps:

- `stop()` (Loop/Managers/KeybindMonitor.swift:79-93) does not reset `lastKeyReleaseTime`.
- A flags event whose `baseModifier` equals the `baseModifier` of any configured
  trigger key (:63) skips all four `checkForModifier` calls and `performKeybind`.

## Model

| member | source | states |
|---|---|---|
| KeybindSpec.Initial | Loop/Managers/KeybindMonitor.swift:14-21 | A new monitor has no pressed keys, no monitors, passthrough allowed, and its creation time as the release timestamp |
| KeybindSpec.Start | Loop/Managers/KeybindMonitor.swift:27-77 | `start()` changes nothing when the key monitor exists or permission is denied; otherwise both monitors exist afterwards; keys, timestamp and passthrough are untouched |
| KeybindSpec.Stop | Loop/Managers/KeybindMonitor.swift:79-93 | `stop()` always empties the pressed keys and re-allows passthrough, keeps the timestamp, and removes both monitors when they were consistent; it leaves the monitors alone unless both existed |
| KeybindSpec.StopIsIdempotent | Loop/Managers/KeybindMonitor.swift:79-93 | A second `stop()` changes nothing |
| KeybindSpec.StopThenStartIsClean | Loop/Managers/KeybindMonitor.swift:27-93 | `stop()` then `start()` yields no pressed keys and passthrough allowed, with monitors present exactly when permission is granted |
| KeybindSpec.Perform | Loop/Managers/KeybindMonitor.swift:95-122 | Gate as written: a settling event over 0.1 s from the last release returns true, no signal, timestamp kept; otherwise the timestamp becomes now exactly for settling events; then Escape gives `true` with ForceClose; otherwise the result is true exactly when the resolver gives an action, with DirectionChanged of that action; a signal implies `true`, and `true` without a signal happens exactly when the gate absorbed |
| KeybindSpec.EscapeIgnoresResolver | Loop/Managers/KeybindMonitor.swift:109-117 | With Escape pressed, the result does not depend on the action resolver |
| KeybindSpec.OnKey | Loop/Managers/KeybindMonitor.swift:33-58 | Repeats, unconvertible events and other event types are forwarded with the state unchanged; a special key (base key 179) leaves the state unchanged and is forwarded exactly when passthrough is allowed; any other key-down adds its base key, a key-up removes it, no other key changes, and the event is swallowed exactly when `performKeybind`, run on the updated set, returns true |
| KeybindSpec.KeyTwiceIsKeyOnce | Loop/Managers/KeybindMonitor.swift:38-43 | The same key-down (or key-up) applied twice leaves the same pressed set as applied once |
| KeybindSpec.CheckForModifier | Loop/Managers/KeybindMonitor.swift:124-132 | When the event's base key is the given modifier key, that key is present exactly when its flag is set and no other key changes; otherwise the set is unchanged |
| KeybindSpec.TrackModifiers | Loop/Managers/KeybindMonitor.swift:65-68 | Only the event's base key can change, and only when it is Shift, Command, Option or Function; it is then present exactly when its flag is set |
| KeybindSpec.OnFlags | Loop/Managers/KeybindMonitor.swift:60-73 | Flags changes are always forwarded; one whose base modifier matches a trigger key's (or that cannot be converted) changes nothing and posts nothing; otherwise the tracked modifier is updated and `performKeybind`'s timestamp and signal apply |
| KeybindRuns.Run | Loop/Managers/KeybindMonitor.swift:33-73 | Processing events in order gives one response per event and never changes passthrough or the monitors |
| KeybindRuns.StepFollowsEffect | Loop/Managers/KeybindMonitor.swift:33-73 | One event changes a key's membership exactly as that event's effect on the key says |
| KeybindRuns.RunTracksKeys | Loop/Managers/KeybindMonitor.swift:38-68 | After any event sequence, a key is pressed exactly when the last event that spoke about it pressed it, or, if none did, when it was pressed at the start |
| KeybindRuns.SpecialKeyNeverTracked | Loop/Managers/KeybindMonitor.swift:19-54 | No event sequence adds or removes the globe key |
| KeybindRuns.StaleGateAbsorbsEveryRelease | Loop/Managers/KeybindMonitor.swift:100-107 | While every event arrives more than 0.1 s after the last accepted release, the timestamp stays put and every settling event posts nothing; key-ups among them are swallowed |
| KeybindRuns.StaleGateIsPermanent | Loop/Managers/KeybindMonitor.swift:100-107 | With events in clock order, once one arrives more than 0.1 s late, no later settling event posts a signal and the timestamp never moves |
| KeybindRuns.FreshReleasePassesGate | Loop/Managers/KeybindMonitor.swift:100-107 | A settling event within 0.1 s of the last accepted release moves the timestamp to its own arrival time |
| Monitor.KeybindMonitor.constructor | Loop/Managers/KeybindMonitor.swift:11-21 | The fields start as `Initial(now)` |
| Monitor.KeybindMonitor.ResetPressedKeys | Loop/Managers/KeybindMonitor.swift:23-25 | The pressed set becomes empty; nothing else is modified |
| Monitor.KeybindMonitor.Start | Loop/Managers/KeybindMonitor.swift:27-77 | The fields change as `KeybindSpec.Start` says, and the two monitors stay consistent |
| Monitor.KeybindMonitor.Stop | Loop/Managers/KeybindMonitor.swift:79-93 | The fields change as `KeybindSpec.Stop` says: afterwards no keys, passthrough allowed, no monitors |
| Monitor.KeybindMonitor.PerformKeybind | Loop/Managers/KeybindMonitor.swift:95-122 | The return value, posted signal and new timestamp are those of `KeybindSpec.Perform`; only the timestamp is modified |
| Monitor.KeybindMonitor.CheckForModifier | Loop/Managers/KeybindMonitor.swift:124-132 | The pressed set changes as `KeybindSpec.CheckForModifier` says |
| Monitor.KeybindMonitor.OnKeyEvent | Loop/Managers/KeybindMonitor.swift:33-58 | The new fields, verdict and signal are those of `KeybindSpec.OnKey` |
| Monitor.KeybindMonitor.OnFlagsChanged | Loop/Managers/KeybindMonitor.swift:60-73 | The new fields, verdict and signal are those of `KeybindSpec.OnFlags` |

## Left out

- Installing the event taps (`CGEventMonitor`, its `start`/`stop`), building an `NSEvent` from a `CGEvent`, and the retain semantics of `Unmanaged.passRetained` are operating-system plumbing. The monitors are booleans, a failed conversion is `None`, and the callback's return is a `Verdict`.
- `CGEventMonitor` is not part of this model. Creating and starting one is assumed to succeed; a tap the operating system refuses is not modelled.
- Posting `Notification.Name.forceCloseLoop` and `.directionChanged` is broadcast I/O. It is modelled as the returned `Signal`.
- `Defaults[.triggerKey]` and `PermissionsManager.Accessibility.getStatus()` are preference and permission queries. They are parameters.
- `baseKey`, `baseModifier` and `WindowAction.getAction(for:)` are not defined in the monitor. They are arbitrary functions in `Env`.
- `Date` and `timeIntervalSinceNow` measure seconds as floating point. The model uses integer milliseconds, a strict `> 100` comparison and an absolute value. Sub-millisecond rounding is not modelled.
- The `shared` singleton is not modelled. The callbacks and `resetPressedKeys` write `KeybindMonitor.shared.pressedKeys`, while `performKeybind` reads `self.pressedKeys`. The model assumes the monitor is the shared instance, so both are the same field. A second instance, where they would differ, is not modelled.
- Thread safety is not modelled. `canPassthroughSpecialEvents` is written by the mouse-movement code on another thread, and `start`/`stop` may race with a callback in flight. The flag is a plain field, and calls are sequential.
- Loop/Luminare/Settings/Keybindings/KeybindingItemView.swift is presentation code (pickers, modals, icons) and is not part of this model.
