/** The `KeybindMonitor` object: its fields are updated in place by `start`,
    `stop`, `resetPressedKeys` and the two event-monitor callbacks. Each method
    is proved to take the object from one state to the one `KeybindSpec`
    prescribes. The callbacks are methods called once per tapped event. */
module Monitor {
  import opened KeyCodes
  import opened Wrappers
  import opened KeybindSpec

  class KeybindMonitor {
    /** `baseKey`, `baseModifier` and `WindowAction.getAction(for:)`. */
    const env: Env

    /** Whether `eventMonitor` (key down/up) and `flagsEventMonitor` are non-nil. */
    var eventMonitor: bool
    var flagsEventMonitor: bool
    var pressedKeys: set<KeyCode>
    /** Milliseconds. */
    var lastKeyReleaseTime: int
    /** Written by the mouse-movement code outside this class. */
    var canPassthroughSpecialEvents: bool

    ghost predicate Valid()
      reads this
    {
      Consistent(Snapshot())
    }

    /** The object's state as a value. */
    function Snapshot(): State
      reads this
    {
      State(pressedKeys, lastKeyReleaseTime, canPassthroughSpecialEvents, eventMonitor, flagsEventMonitor)
    }

    constructor (env: Env, now: int)
      ensures Valid() && this.env == env
      ensures Snapshot() == Initial(now)
    {
      this.env := env;
      eventMonitor, flagsEventMonitor := false, false;
      pressedKeys := {};
      lastKeyReleaseTime := now;
      canPassthroughSpecialEvents := true;
    }

    method ResetPressedKeys()
      modifies this`pressedKeys
      ensures pressedKeys == {}
    {
      pressedKeys := {};
    }

    /** `permission` is the accessibility permission status at the time of the call. */
    method Start(permission: bool)
      requires Valid()
      modifies this`eventMonitor, this`flagsEventMonitor
      ensures Valid()
      ensures Snapshot() == KeybindSpec.Start(old(Snapshot()), permission)
    {
      if eventMonitor || !permission {
        return;
      }
      eventMonitor := true;
      flagsEventMonitor := true;
    }

    method Stop()
      requires Valid()
      modifies this
      ensures Valid()
      ensures Snapshot() == KeybindSpec.Stop(old(Snapshot()))
      ensures pressedKeys == {} && canPassthroughSpecialEvents && !eventMonitor && !flagsEventMonitor
    {
      ResetPressedKeys();
      canPassthroughSpecialEvents := true;
      if !(eventMonitor && flagsEventMonitor) {
        return;
      }
      eventMonitor := false;
      flagsEventMonitor := false;
    }

    /** `performKeybind`: returns whether the event was handled, and the posted signal. */
    method PerformKeybind(kind: EventType, flags: ModifierFlags, now: int) returns (handled: bool, signal: Signal)
      modifies this`lastKeyReleaseTime
      ensures Evaluation(handled, lastKeyReleaseTime, signal) ==
              Perform(env, pressedKeys, old(lastKeyReleaseTime), kind, flags, now)
    {
      if Settling(kind, flags) {
        if Abs(now - lastKeyReleaseTime) > ReleaseWindowMs {
          return true, NoSignal;
        }
        lastKeyReleaseTime := now;
      }
      if EscapeKey in pressedKeys {
        return true, ForceClose;
      }
      var action := env.getAction(pressedKeys);
      if action.Some? {
        return true, DirectionChanged(action.value);
      }
      return false, NoSignal;
    }

    method CheckForModifier(event: KeyEvent, key: KeyCode, flag: ModifierFlags)
      modifies this`pressedKeys
      ensures pressedKeys == KeybindSpec.CheckForModifier(env, old(pressedKeys), event, key, flag)
    {
      if env.baseKey(event.keyCode) == key {
        if HasFlag(event.flags, flag) {
          pressedKeys := pressedKeys + {key};
        } else {
          pressedKeys := pressedKeys - {key};
        }
      }
    }

    /** The key-down / key-up callback. `event` is `None` when no `NSEvent` can be built. */
    method OnKeyEvent(kind: EventType, event: Option<KeyEvent>, now: int) returns (verdict: Verdict, signal: Signal)
      requires Valid()
      modifies this`pressedKeys, this`lastKeyReleaseTime
      ensures Valid()
      ensures Outcome(Snapshot(), Response(verdict, signal)) == OnKey(env, old(Snapshot()), kind, event, now)
    {
      signal := NoSignal;
      if (kind == KeyDown || kind == KeyUp) && event.Some? && !event.value.isRepeat {
        var ev := event.value;
        var k := env.baseKey(ev.keyCode);
        if !IsSpecial(k) {
          if kind == KeyUp {
            pressedKeys := pressedKeys - {k};
          } else if kind == KeyDown {
            pressedKeys := pressedKeys + {k};
          }
          var handled;
          handled, signal := PerformKeybind(kind, ev.flags, now);
          if handled {
            return Swallow, signal;
          }
        } else {
          if canPassthroughSpecialEvents {
            return Forward, NoSignal;
          } else {
            return Swallow, NoSignal;
          }
        }
      }
      return Forward, signal;
    }

    /** The flags-changed callback; `triggerKeys` is the configured trigger key set. */
    method OnFlagsChanged(kind: EventType, event: Option<KeyEvent>, triggerKeys: set<KeyCode>, now: int)
      returns (verdict: Verdict, signal: Signal)
      requires Valid()
      modifies this`pressedKeys, this`lastKeyReleaseTime
      ensures Valid()
      ensures Outcome(Snapshot(), Response(verdict, signal)) ==
              OnFlags(env, old(Snapshot()), kind, event, triggerKeys, now)
    {
      signal := NoSignal;
      if kind == FlagsChanged && event.Some? && !TriggerMatches(env, event.value, triggerKeys) {
        var ev := event.value;
        CheckForModifier(ev, ShiftKey, ShiftFlag);
        CheckForModifier(ev, CommandKey, CommandFlag);
        CheckForModifier(ev, OptionKey, OptionFlag);
        CheckForModifier(ev, FunctionKey, FunctionFlag);
        // The result is discarded: flags changes are always forwarded.
        var handled;
        handled, signal := PerformKeybind(kind, ev.flags, now);
      }
      return Forward, signal;
    }
  }
}
