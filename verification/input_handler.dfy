/**
 * The keyboard state machine: key codes map to seven boolean actions, a key
 * press or release flips its action and notifies the subscribers only when the
 * action actually changes, and losing focus or clearing releases everything.
 * Subscribers are identified by number and every notification is recorded as
 * a snapshot of the action record it delivers.
 */
module Input {
  import opened GameTypes
  import opened Listeners

  datatype Action = Left | Right | Up | Down | Jump | Run | Pause

  function Get(s: InputState, a: Action): bool
  {
    match a
    case Left => s.left
    case Right => s.right
    case Up => s.up
    case Down => s.down
    case Jump => s.jump
    case Run => s.run
    case Pause => s.pause
  }

  /** Sets one action and leaves the other six alone. */
  function Set(s: InputState, a: Action, v: bool): (r: InputState)
    ensures Get(r, a) == v
    ensures forall b :: b != a ==> Get(r, b) == Get(s, b)
  {
    match a
    case Left => s.(left := v)
    case Right => s.(right := v)
    case Up => s.(up := v)
    case Down => s.(down := v)
    case Jump => s.(jump := v)
    case Run => s.(run := v)
    case Pause => s.(pause := v)
  }

  /** Two action records that agree on every action are equal. */
  lemma SameActionsSameState(s: InputState, t: InputState)
    requires forall a :: Get(s, a) == Get(t, a)
    ensures s == t
  {
    assert Get(s, Left) == Get(t, Left) && Get(s, Right) == Get(t, Right);
    assert Get(s, Up) == Get(t, Up) && Get(s, Down) == Get(t, Down);
    assert Get(s, Jump) == Get(t, Jump) && Get(s, Run) == Get(t, Run) && Get(s, Pause) == Get(t, Pause);
  }

  /** The nine default bindings: arrows, Space, both Shift keys, Escape and P. */
  const DefaultKeyMap: map<string, Action> := map[
    "ArrowLeft" := Left, "ArrowRight" := Right, "ArrowUp" := Up, "ArrowDown" := Down,
    "Space" := Jump, "ShiftLeft" := Run, "ShiftRight" := Run,
    "Escape" := Pause, "KeyP" := Pause]

  /** Whether a key press changes anything: the code is bound and its action is not already held. */
  predicate PressNotifies(s: InputState, keyMap: map<string, Action>, code: string)
  {
    code in keyMap && !Get(s, keyMap[code])
  }

  predicate ReleaseNotifies(s: InputState, keyMap: map<string, Action>, code: string)
  {
    code in keyMap && Get(s, keyMap[code])
  }

  /** The action record after a key press: the bound action is held, nothing else changes. */
  function Press(s: InputState, keyMap: map<string, Action>, code: string): (r: InputState)
    ensures code !in keyMap ==> r == s
    ensures code in keyMap ==> Get(r, keyMap[code]) && forall b :: b != keyMap[code] ==> Get(r, b) == Get(s, b)
    ensures r != s <==> PressNotifies(s, keyMap, code)
  {
    if PressNotifies(s, keyMap, code) then Set(s, keyMap[code], true) else s
  }

  /** The action record after a key release: the bound action is released, nothing else changes. */
  function Release(s: InputState, keyMap: map<string, Action>, code: string): (r: InputState)
    ensures code !in keyMap ==> r == s
    ensures code in keyMap ==> !Get(r, keyMap[code]) && forall b :: b != keyMap[code] ==> Get(r, b) == Get(s, b)
    ensures r != s <==> ReleaseNotifies(s, keyMap, code)
  {
    if ReleaseNotifies(s, keyMap, code) then Set(s, keyMap[code], false) else s
  }

  /** A repeated key press is a no-op that notifies no one. */
  lemma RepeatedPressIsSilent(s: InputState, keyMap: map<string, Action>, code: string)
    ensures Press(Press(s, keyMap, code), keyMap, code) == Press(s, keyMap, code)
    ensures !PressNotifies(Press(s, keyMap, code), keyMap, code)
  {
  }

  /** Pressing and releasing a key that was up restores the record. */
  lemma PressThenRelease(s: InputState, keyMap: map<string, Action>, code: string)
    requires code in keyMap && !Get(s, keyMap[code])
    ensures Release(Press(s, keyMap, code), keyMap, code) == s
  {
    var a := keyMap[code];
    var p := Set(s, a, true);
    var r := Set(p, a, false);
    assert Press(s, keyMap, code) == p;
    assert Release(p, keyMap, code) == r;
    forall b
      ensures Get(r, b) == Get(s, b)
    {
      if b != a {
        assert Get(r, b) == Get(p, b);
      }
    }
    SameActionsSameState(r, s);
  }

  /**
   * Both Shift keys are bound to run: releasing either one releases run,
   * after which releasing the other changes nothing.
   */
  lemma EitherShiftReleasesRun(s: InputState)
    requires Get(s, Run)
    ensures !Get(Release(s, DefaultKeyMap, "ShiftLeft"), Run)
    ensures !Get(Release(s, DefaultKeyMap, "ShiftRight"), Run)
    ensures !ReleaseNotifies(Release(s, DefaultKeyMap, "ShiftLeft"), DefaultKeyMap, "ShiftRight")
  {
  }

  class InputHandler {
    var inputState: InputState
    var keyMap: map<string, Action>
    var listeners: seq<nat>
    /** One snapshot per notification, in order. */
    ghost var notifications: seq<InputState>
    var enabled: bool

    constructor ()
      ensures inputState == NoInput && keyMap == DefaultKeyMap
      ensures listeners == [] && notifications == [] && enabled
    {
      inputState := NoInput;
      keyMap := DefaultKeyMap;
      listeners := [];
      notifications := [];
      enabled := true;
    }

    method NotifyListeners()
      modifies this`notifications
      ensures notifications == old(notifications) + [inputState]
    {
      notifications := notifications + [inputState];
    }

    /** A key press; whether input is enabled is not consulted. */
    method HandleKeyDown(code: string)
      modifies this`inputState, this`notifications
      ensures inputState == Press(old(inputState), keyMap, code)
      ensures notifications ==
              old(notifications) + (if PressNotifies(old(inputState), keyMap, code) then [inputState] else [])
    {
      if code in keyMap && !Get(inputState, keyMap[code]) {
        inputState := Set(inputState, keyMap[code], true);
        NotifyListeners();
      }
    }

    /** A key release; whether input is enabled is not consulted. */
    method HandleKeyUp(code: string)
      modifies this`inputState, this`notifications
      ensures inputState == Release(old(inputState), keyMap, code)
      ensures notifications ==
              old(notifications) + (if ReleaseNotifies(old(inputState), keyMap, code) then [inputState] else [])
    {
      if code in keyMap && Get(inputState, keyMap[code]) {
        inputState := Set(inputState, keyMap[code], false);
        NotifyListeners();
      }
    }

    /** Losing focus releases every action and always notifies. */
    method HandleWindowBlur()
      modifies this`inputState, this`notifications
      ensures inputState == NoInput
      ensures notifications == old(notifications) + [NoInput]
    {
      ClearInputs();
    }

    method ClearInputs()
      modifies this`inputState, this`notifications
      ensures inputState == NoInput
      ensures notifications == old(notifications) + [NoInput]
    {
      inputState := NoInput;
      NotifyListeners();
    }

    method Subscribe(callback: nat)
      modifies this`listeners
      ensures listeners == old(listeners) + [callback]
    {
      listeners := listeners + [callback];
    }

    /** The function subscribe returns: removes the callback's first occurrence, if any. */
    method Unsubscribe(callback: nat)
      modifies this`listeners
      ensures listeners == RemoveFirst(old(listeners), callback)
    {
      listeners := RemoveFirst(listeners, callback);
    }

    /** A copy of the action record. */
    method GetInputState() returns (r: InputState)
      ensures forall a :: Get(r, a) == Get(inputState, a)
    {
      r := inputState;
    }

    method IsActionActive(action: Action) returns (active: bool)
      ensures active == Get(inputState, action)
    {
      active := Get(inputState, action);
    }

    /** Binds one key, adding or overwriting its binding; every other binding stays. */
    method SetKeyMapping(key: string, action: Action)
      modifies this`keyMap
      ensures key in keyMap && keyMap[key] == action
      ensures forall k :: k != key ==> (k in keyMap <==> k in old(keyMap))
      ensures forall k :: k != key && k in keyMap ==> keyMap[k] == old(keyMap)[k]
    {
      keyMap := keyMap[key := action];
    }

    method SetEnabled(enabled: bool)
      modifies this`enabled, this`inputState, this`notifications
      ensures this.enabled == enabled
      ensures enabled ==> inputState == old(inputState) && notifications == old(notifications)
      ensures !enabled ==> inputState == NoInput && notifications == old(notifications) + [NoInput]
    {
      this.enabled := enabled;
      if !enabled {
        ClearInputs();
      }
    }

    predicate IsEnabled()
      reads this
    {
      enabled
    }

    /** Drops every subscriber. */
    method Destroy()
      modifies this`listeners
      ensures listeners == []
    {
      listeners := [];
    }
  }
}
