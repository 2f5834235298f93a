/**
 * Keyboard control: the key map, the per-action repeat latch, the dispatch of an action
 * to the game, the parameter cycle, and the slider adjustments. What the page provides
 * (whether the game screen is showing, whether the game is paused, the focus being in a
 * text field) is passed in; what the handler asks of the game or the window comes back as an
 * `Effect`.
 */
module KeyboardHandler {
  import opened Wrappers
  import opened Strings
  import opened Utils

  datatype KeyAction = ParamUp | ParamDown | ParamLeft | ParamRight
                     | Ability1 | Ability2 | Ability3 | Ability4
                     | SwitchParam | Pause | ResetKey | Fullscreen

  /** `keyMap`: key value to action. */
  const KeyMap: map<string, KeyAction> := map[
    "w" := ParamUp, "s" := ParamDown, "a" := ParamLeft, "d" := ParamRight,
    "1" := Ability1, "2" := Ability2, "3" := Ability3, "4" := Ability4,
    "Tab" := SwitchParam, "Escape" := Pause, "r" := ResetKey, "f" := Fullscreen,
    "ArrowUp" := ParamUp, "ArrowDown" := ParamDown, "ArrowLeft" := ParamLeft, "ArrowRight" := ParamRight]

  /** `keyMap[key.toLowerCase()] || keyMap[key]`. */
  function Mapping(key: string): (a: Option<KeyAction>)
    ensures ToLower(key) in KeyMap ==> a == Some(KeyMap[ToLower(key)])
    ensures ToLower(key) !in KeyMap && key in KeyMap ==> a == Some(KeyMap[key])
    ensures a.None? <==> ToLower(key) !in KeyMap && key !in KeyMap
  {
    if ToLower(key) in KeyMap then Some(KeyMap[ToLower(key)])
    else if key in KeyMap then Some(KeyMap[key])
    else None
  }

  /** Lower-casing twice is lower-casing once. */
  lemma {:induction false} ToLowerIdempotent(s: string)
    ensures ToLower(ToLower(s)) == ToLower(s)
  {
    var t := ToLower(s);
    assert forall i :: 0 <= i < |t| ==> ToLower(t)[i] == ToLowerChar(ToLowerChar(s[i]));
  }

  /**
   * A key and its lower-case form reach the same action, so the upper-case letters act like
   * the lower-case ones.
   */
  lemma MappingIgnoresCase(key: string)
    ensures ToLower(key) in KeyMap ==> Mapping(key) == Mapping(ToLower(key))
  {
    ToLowerIdempotent(key);
  }

  datatype Param = Temperature | Pressure | Concentration

  /** `params`, in cycle order. */
  const Params: seq<Param> := [Temperature, Pressure, Concentration]

  /** `switchToNextParam`'s step: the next parameter in the cycle. */
  function NextParam(p: Param): (q: Param)
    ensures q != p
    ensures var i := if p == Temperature then 0 else if p == Pressure then 1 else 2; q == Params[(i + 1) % 3]
  {
    match p
    case Temperature => Pressure
    case Pressure => Concentration
    case Concentration => Temperature
  }

  /** Three switches come back to the start, and every parameter is reached. */
  lemma ParamCycle(p: Param)
    ensures NextParam(NextParam(NextParam(p))) == p
    ensures p != NextParam(NextParam(p))
  {
  }

  /** One slider step, then `max(0, min(100, value + delta))`. */
  const Step: real := 5.0

  function SliderAfter(value: real, delta: real): (v: real)
    ensures 0.0 <= v <= 100.0
    ensures 0.0 <= value + delta <= 100.0 ==> v == value + delta
  {
    Clamp(value + delta, 0.0, 100.0)
  }

  /**
   * A step that would leave the range stops at its end, a larger starting value never gives a
   * smaller result, and a step up never lowers the slider once it is inside the range.
   */
  lemma SliderSaturates(value: real, other: real, delta: real)
    ensures value + delta >= 100.0 ==> SliderAfter(value, delta) == 100.0
    ensures value + delta <= 0.0 ==> SliderAfter(value, delta) == 0.0
    ensures value <= other ==> SliderAfter(value, delta) <= SliderAfter(other, delta)
    ensures 0.0 <= value <= 100.0 && delta >= 0.0 ==> SliderAfter(value, delta) >= value
  {
  }

  /** What the handler asks of the game or the window. */
  datatype Effect =
    | ToggleFullscreen
    | TogglePause
    | ShowMainMenu
    | AdjustSlider(param: Param, delta: real)
    | SwitchedParam(param: Param)
    | ResetTurn
    | UseAbility(cardId: string)
    | NoEffect

  /** The card each ability key uses. */
  function AbilityCard(a: KeyAction): (id: string)
    requires a.Ability1? || a.Ability2? || a.Ability3? || a.Ability4?
    ensures id in ["catalyst", "buffer", "heatexchange", "quantum"]
  {
    match a
    case Ability1 => "catalyst"
    case Ability2 => "buffer"
    case Ability3 => "heatexchange"
    case Ability4 => "quantum"
  }

  class KeyboardHandler {
    var currentParam: Param
    var enabled: bool
    var latched: set<KeyAction>

    /** The object literal: temperature selected, enabled, nothing held. */
    constructor()
      ensures currentParam == Temperature && enabled && latched == {}
    {
      currentParam, enabled, latched := Temperature, true, {};
    }

    /**
     * `executeAction(action)`: fullscreen and pause act on every screen (pause goes back to
     * the menu off the game screen); the rest act only on the game screen while the game is
     * not paused. Up and right step the selected parameter by +5, down and left by -5.
     */
    method ExecuteAction(action: KeyAction, gameScreen: bool, paused: bool) returns (effect: Effect)
      modifies this
      ensures action == Fullscreen ==> effect == ToggleFullscreen
      ensures action == Pause ==> effect == (if gameScreen then TogglePause else ShowMainMenu)
      ensures action != Fullscreen && action != Pause && (!gameScreen || paused) ==> effect == NoEffect
      ensures action != Fullscreen && action != Pause && gameScreen && !paused ==>
        && (action == ParamUp || action == ParamRight ==> effect == AdjustSlider(old(currentParam), Step))
        && (action == ParamDown || action == ParamLeft ==> effect == AdjustSlider(old(currentParam), -Step))
        && (action == SwitchParam ==> effect == SwitchedParam(NextParam(old(currentParam))))
        && (action.ResetKey? ==> effect == ResetTurn)
        && (action.Ability1? || action.Ability2? || action.Ability3? || action.Ability4? ==> effect == UseAbility(AbilityCard(action)))
      ensures currentParam == (if effect.SwitchedParam? then NextParam(old(currentParam)) else old(currentParam))
      ensures enabled == old(enabled) && latched == old(latched)
    {
      if action == Fullscreen {
        return ToggleFullscreen;
      }
      if action == Pause {
        return if gameScreen then TogglePause else ShowMainMenu;
      }
      if !gameScreen || paused {
        return NoEffect;
      }
      match action {
        case ParamUp => effect := AdjustSlider(currentParam, Step);
        case ParamRight => effect := AdjustSlider(currentParam, Step);
        case ParamDown => effect := AdjustSlider(currentParam, -Step);
        case ParamLeft => effect := AdjustSlider(currentParam, -Step);
        case SwitchParam =>
          currentParam := NextParam(currentParam);
          effect := SwitchedParam(currentParam);
        case ResetKey => effect := ResetTurn;
        case Ability1 => effect := UseAbility(AbilityCard(action));
        case Ability2 => effect := UseAbility(AbilityCard(action));
        case Ability3 => effect := UseAbility(AbilityCard(action));
        case Ability4 => effect := UseAbility(AbilityCard(action));
      }
    }

    /**
     * `handleKeyDown`: ignored while disabled, in a text field, or for an unmapped key;
     * otherwise the action fires only if it is not already held, and is then held.
     */
    method HandleKeyDown(key: string, inTextField: bool, gameScreen: bool, paused: bool) returns (fired: bool, effect: Effect)
      modifies this
      ensures !old(enabled) || inTextField || Mapping(key).None? ==> !fired && effect == NoEffect && latched == old(latched)
      ensures old(enabled) && !inTextField && Mapping(key).Some? ==>
        && (fired <==> Mapping(key).value !in old(latched))
        && latched == old(latched) + {Mapping(key).value}
      ensures !fired ==> effect == NoEffect && currentParam == old(currentParam)
      ensures enabled == old(enabled)
    {
      fired, effect := false, NoEffect;
      if !enabled || inTextField {
        return;
      }
      var mapping := Mapping(key);
      if mapping.None? || mapping.value in latched {
        return;
      }
      latched := latched + {mapping.value};
      fired := true;
      effect := ExecuteAction(mapping.value, gameScreen, paused);
    }

    /** `handleKeyUp`: release the key's action, even while disabled. */
    method HandleKeyUp(key: string)
      modifies this
      ensures latched == if Mapping(key).Some? then old(latched) - {Mapping(key).value} else old(latched)
      ensures enabled == old(enabled) && currentParam == old(currentParam)
    {
      var mapping := Mapping(key);
      if mapping.Some? {
        latched := latched - {mapping.value};
      }
    }

    /** `enable`. */
    method Enable()
      modifies this
      ensures enabled && latched == old(latched) && currentParam == old(currentParam)
    {
      enabled := true;
    }

    /** `disable`: stop handling keys and forget every held action. */
    method Disable()
      modifies this
      ensures !enabled && latched == {} && currentParam == old(currentParam)
    {
      enabled := false;
      latched := {};
    }

    /** `reset`: temperature selected again and nothing held. */
    method Reset()
      modifies this
      ensures currentParam == Temperature && latched == {} && enabled == old(enabled)
    {
      currentParam := Temperature;
      latched := {};
    }
  }

  /**
   * `adjustConcentration(delta)`: every concentration slider moves by delta, clamped to
   * [0, 100].
   */
  method AdjustConcentration(sliders: array<real>, delta: real)
    modifies sliders
    ensures forall i :: 0 <= i < sliders.Length ==> sliders[i] == SliderAfter(old(sliders[i]), delta)
  {
    var i := 0;
    while i < sliders.Length
      invariant 0 <= i <= sliders.Length
      invariant forall j :: 0 <= j < i ==> sliders[j] == SliderAfter(old(sliders[j]), delta)
      invariant forall j :: i <= j < sliders.Length ==> sliders[j] == old(sliders[j])
    {
      sliders[i] := SliderAfter(sliders[i], delta);
      i := i + 1;
    }
  }
}
