/** Sequences of tapped events, processed one at a time in delivery order, and
    what they leave behind. */
module KeybindRuns {
  import opened KeyCodes
  import opened Wrappers
  import opened KeybindSpec

  /** One tapped event: from the key-down/key-up monitor or from the flags monitor,
      with its arrival time in milliseconds. A flags event carries the trigger keys
      configured when it arrives. */
  datatype Input =
    | KeyInput(kind: EventType, event: Option<KeyEvent>, at: int)
    | FlagsInput(kind: EventType, event: Option<KeyEvent>, triggerKeys: set<KeyCode>, at: int)

  function Step(env: Env, s: State, input: Input): Outcome
  {
    match input
    case KeyInput(kind, event, at) => OnKey(env, s, kind, event, at)
    case FlagsInput(kind, event, triggerKeys, at) => OnFlags(env, s, kind, event, triggerKeys, at)
  }

  datatype Trace = Trace(state: State, responses: seq<Response>)

  /** The final state and the response to every event, in order. */
  function Run(env: Env, s: State, inputs: seq<Input>): (r: Trace)
    ensures |r.responses| == |inputs|
    ensures r.state.canPassthroughSpecialEvents == s.canPassthroughSpecialEvents
    ensures r.state.eventMonitor == s.eventMonitor && r.state.flagsEventMonitor == s.flagsEventMonitor
    decreases |inputs|
  {
    if inputs == [] then Trace(s, [])
    else
      var o := Step(env, s, inputs[0]);
      var rest := Run(env, o.state, inputs[1..]);
      Trace(rest.state, [o.response] + rest.responses)
  }

  /** What a single event says about key `k`: pressed (`Some(true)`), released
      (`Some(false)`) or nothing. A non-repeat key-down or key-up of a non-special
      key speaks for its base key; a flags change that is not a trigger modifier
      speaks for its base key when that is a tracked modifier. */
  function Effect(env: Env, input: Input, k: KeyCode): Option<bool>
  {
    match input
    case KeyInput(kind, event, _) =>
      if KeyEventReaches(kind, event) && !IsSpecial(env.baseKey(event.value.keyCode))
         && env.baseKey(event.value.keyCode) == k
      then Some(kind == KeyDown)
      else None
    case FlagsInput(kind, event, triggerKeys, _) =>
      if FlagsEventReaches(env, kind, event, triggerKeys) && env.baseKey(event.value.keyCode) == k
         && IsTrackedModifier(k)
      then Some(HasFlag(event.value.flags, ModifierFlagOf(k)))
      else None
  }

  /** The last word of a sequence of events on key `k`. */
  function LastWord(env: Env, inputs: seq<Input>, k: KeyCode): Option<bool>
    decreases |inputs|
  {
    if inputs == [] then None
    else
      match LastWord(env, inputs[1..], k)
      case Some(down) => Some(down)
      case None => Effect(env, inputs[0], k)
  }

  /** One event changes key `k` exactly as its effect says. */
  lemma StepFollowsEffect(env: Env, s: State, input: Input, k: KeyCode)
    ensures k in Step(env, s, input).state.pressedKeys <==>
            match Effect(env, input, k)
            case Some(down) => down
            case None => k in s.pressedKeys
  {
  }

  /** After any sequence of events a key is pressed exactly when the last event
      that spoke about it pressed it, or, if none did, when it was pressed before. */
  lemma {:induction false} RunTracksKeys(env: Env, s: State, inputs: seq<Input>, k: KeyCode)
    ensures k in Run(env, s, inputs).state.pressedKeys <==>
            match LastWord(env, inputs, k)
            case Some(down) => down
            case None => k in s.pressedKeys
    decreases |inputs|
  {
    if inputs != [] {
      var o := Step(env, s, inputs[0]);
      StepFollowsEffect(env, s, inputs[0], k);
      RunTracksKeys(env, o.state, inputs[1..], k);
    }
  }

  /** No sequence of events ever adds or removes the special globe key. */
  lemma {:induction false} SpecialKeyNeverTracked(env: Env, s: State, inputs: seq<Input>, k: KeyCode)
    requires IsSpecial(k)
    ensures k in Run(env, s, inputs).state.pressedKeys <==> k in s.pressedKeys
    decreases |inputs|
  {
    if inputs != [] {
      var o := Step(env, s, inputs[0]);
      StepFollowsEffect(env, s, inputs[0], k);
      SpecialKeyNeverTracked(env, o.state, inputs[1..], k);
    }
  }

  /** An event that reaches `performKeybind` as a settling (release-type) event. */
  predicate SettlingInput(env: Env, input: Input)
  {
    match input
    case KeyInput(kind, event, _) =>
      KeyEventReaches(kind, event) && !IsSpecial(env.baseKey(event.value.keyCode)) && kind == KeyUp
    case FlagsInput(kind, event, triggerKeys, _) =>
      FlagsEventReaches(env, kind, event, triggerKeys) && !HasFlag(event.value.flags, ShiftFlag)
  }

  /** The gate as written never moves the release time forward once it is stale:
      while every event arrives more than 0.1 s after the last accepted release,
      that time stays put and every settling event posts nothing; a key-up among
      them is swallowed, a flags change forwarded. */
  lemma {:induction false} StaleGateAbsorbsEveryRelease(env: Env, s: State, inputs: seq<Input>)
    requires forall i :: 0 <= i < |inputs| ==> inputs[i].at > s.lastKeyReleaseTime + ReleaseWindowMs
    ensures Run(env, s, inputs).state.lastKeyReleaseTime == s.lastKeyReleaseTime
    ensures forall i :: 0 <= i < |inputs| && SettlingInput(env, inputs[i]) ==>
              Run(env, s, inputs).responses[i] ==
              Response(if inputs[i].KeyInput? then Swallow else Forward, NoSignal)
    decreases |inputs|
  {
    if inputs != [] {
      var o := Step(env, s, inputs[0]);
      assert o.state.lastKeyReleaseTime == s.lastKeyReleaseTime;
      StaleGateAbsorbsEveryRelease(env, o.state, inputs[1..]);
      var r := Run(env, s, inputs);
      forall i | 0 <= i < |inputs| && SettlingInput(env, inputs[i])
        ensures r.responses[i] == Response(if inputs[i].KeyInput? then Swallow else Forward, NoSignal)
      {
        if i > 0 {
          assert inputs[i] == inputs[1..][i - 1];
        }
      }
    }
  }

  /** Events delivered in clock order. */
  predicate InClockOrder(inputs: seq<Input>)
  {
    forall i, j :: 0 <= i < j < |inputs| ==> inputs[i].at <= inputs[j].at
  }

  /** With a clock that does not run backwards, one event arriving more than 0.1 s
      after the last accepted release is enough: from then on no settling event
      ever passes the gate again. */
  lemma StaleGateIsPermanent(env: Env, s: State, inputs: seq<Input>)
    requires InClockOrder(inputs)
    requires |inputs| > 0 && inputs[0].at > s.lastKeyReleaseTime + ReleaseWindowMs
    ensures Run(env, s, inputs).state.lastKeyReleaseTime == s.lastKeyReleaseTime
    ensures forall i :: 0 <= i < |inputs| && SettlingInput(env, inputs[i]) ==>
              Run(env, s, inputs).responses[i].signal == NoSignal
  {
    forall i | 0 <= i < |inputs|
      ensures inputs[i].at > s.lastKeyReleaseTime + ReleaseWindowMs
    {
      if i > 0 {
        assert inputs[0].at <= inputs[i].at;
      }
    }
    StaleGateAbsorbsEveryRelease(env, s, inputs);
  }

  /** A settling event within 0.1 s of the last accepted release passes the gate
      and moves the release time to its own arrival. */
  lemma FreshReleasePassesGate(env: Env, s: State, input: Input)
    requires SettlingInput(env, input)
    requires Abs(input.at - s.lastKeyReleaseTime) <= ReleaseWindowMs
    ensures Step(env, s, input).state.lastKeyReleaseTime == input.at
  {
  }
}
