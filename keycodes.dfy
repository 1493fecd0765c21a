/** Key codes and modifier flags as macOS reports them.

    A `CGKeyCode` is an unsigned 16-bit virtual key code; the modifier flags of an
    `NSEvent` are a 64-bit mask whose upper half (`deviceIndependentFlagsMask`)
    carries the device-independent modifiers and whose lower half carries
    device-specific bits (left/right variants and the like). */
module KeyCodes {

  /** `CGKeyCode` (UInt16). */
  type KeyCode = k: int | 0 <= k < 0x1_0000

  /** `NSEvent.ModifierFlags.rawValue` (UInt). */
  type ModifierFlags = bv64

  // Virtual key codes (Carbon `kVK_*` constants).
  const EscapeKey: KeyCode := 0x35
  const CommandKey: KeyCode := 0x37
  const ShiftKey: KeyCode := 0x38
  const OptionKey: KeyCode := 0x3A
  const FunctionKey: KeyCode := 0x3F

  /** The globe key, which doubles as the emoji key. */
  const GlobeKey: KeyCode := 179

  // Device-independent modifier flags (`NSEvent.ModifierFlags`).
  const ShiftFlag: ModifierFlags := 1 << 17
  const OptionFlag: ModifierFlags := 1 << 19
  const CommandFlag: ModifierFlags := 1 << 20
  const FunctionFlag: ModifierFlags := 1 << 23
  const DeviceIndependentFlagsMask: ModifierFlags := 0xffff_0000

  /** `flags.intersection(.deviceIndependentFlagsMask).contains(flag)`. */
  predicate HasFlag(flags: ModifierFlags, flag: ModifierFlags)
  {
    (flags & DeviceIndependentFlagsMask) & flag == flag
  }

  /** Membership in the monitor's list of special events, which is `[179]`. */
  predicate IsSpecial(k: KeyCode)
  {
    k in [GlobeKey]
  }

  /** The four modifiers whose keys the flags monitor tracks. */
  predicate IsTrackedModifier(k: KeyCode)
  {
    k == ShiftKey || k == CommandKey || k == OptionKey || k == FunctionKey
  }

  /** The flag that reports a tracked modifier key as held. */
  function ModifierFlagOf(k: KeyCode): ModifierFlags
    requires IsTrackedModifier(k)
  {
    if k == ShiftKey then ShiftFlag
    else if k == CommandKey then CommandFlag
    else if k == OptionKey then OptionFlag
    else FunctionFlag
  }
}
