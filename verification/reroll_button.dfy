/**
 * The reroll button (Assets/Scripts/UI/Components/RewardsRerollButton.cs):
 * a five-state visual state machine driven by pointer events, clicks,
 * enabling and the dice animation.
 *
 * The abstract `Config` (state, enabled flag, animating flag, number of
 * reroll events raised) and its transition function `Step` are the
 * specification; every handler of the class is proved to move its
 * configuration exactly as `Step` does, and the properties of the button are
 * proved about `Step` and `Run`.
 */
module RerollButton {
  /** The element's visual states (EButtonState). */
  datatype ButtonState = Normal | Hovered | Pressed | Animating | Disabled

  /** The element's picking mode: picked by position, or ignored. */
  datatype PickingMode = Position | Ignore

  const PressedClass: string := "pressed"
  const HoveredClass: string := "hovered"
  const DefaultAnimationDuration: real := 0.1

  /** The states in which the button neither reacts to pointers nor to clicks. */
  predicate Blocked(s: ButtonState) {
    s == Disabled || s == Animating
  }

  /** The state classes an element in state `s` carries. */
  function StateClasses(s: ButtonState): (r: set<string>)
    ensures PressedClass in r <==> s == Pressed
    ensures HoveredClass in r <==> s == Hovered
    ensures r <= {PressedClass, HoveredClass}
  {
    if s == Pressed then {PressedClass}
    else if s == Hovered then {HoveredClass}
    else {}
  }

  lemma ClassNamesDistinct()
    ensures PressedClass != HoveredClass
  {
    assert PressedClass[0] != HoveredClass[0];
  }

  /** Removing both state classes leaves no class behind. */
  lemma StateClassesRemoved(s: ButtonState)
    ensures StateClasses(s) - {PressedClass, HoveredClass} == {}
  {
  }

  /** The picking mode of an element in state `s`. */
  function StatePicking(s: ButtonState): (p: PickingMode)
    ensures p == Ignore <==> Blocked(s)
  {
    match s
    case Disabled => Ignore
    case Animating => Ignore
    case _ => Position
  }

  /**
   * Whether an animation frame ends the animation: the normalised time
   * `elapsed / duration` has reached 1. A zero duration divides to +infinity
   * once time has passed and to NaN (never >= 1) at time zero.
   */
  predicate Completes(elapsed: real, duration: real) {
    if duration == 0.0 then elapsed > 0.0 else elapsed / duration >= 1.0
  }

  /** With a positive duration the animation ends exactly when the duration has elapsed. */
  lemma CompletesAtDuration(elapsed: real, duration: real)
    requires duration > 0.0
    ensures Completes(elapsed, duration) <==> elapsed >= duration
  {
    if elapsed >= duration {
      assert elapsed / duration >= duration / duration;
    } else {
      assert elapsed / duration < duration / duration;
    }
  }

  /** What the button's handlers observe and change. */
  datatype Config = Config(state: ButtonState, enabled: bool, animating: bool, clicks: nat)

  /** The inputs the button reacts to. */
  datatype Input =
    | PointerDown
    | PointerUp(inside: bool)
    | PointerOver
    | PointerOut
    | Click
    | SetEnabled(enabled: bool)
    | Detach
    | Complete

  /** The transition every handler performs. */
  function Step(c: Config, i: Input): Config {
    match i
    case PointerDown =>
      if Blocked(c.state) then c else c.(state := Pressed)
    case PointerUp(inside) =>
      if Blocked(c.state) then c else c.(state := if inside then Hovered else Normal)
    case PointerOver =>
      if c.state == Normal then c.(state := Hovered) else c
    case PointerOut =>
      if c.state == Hovered then c.(state := Normal) else c
    case Click =>
      if Blocked(c.state) then c
      else c.(state := Animating, animating := true, clicks := c.clicks + 1)
    case SetEnabled(e) =>
      if e && c.state != Animating then c.(enabled := e, state := Normal)
      else if !e then c.(enabled := e, state := Disabled)
      else c.(enabled := e)
    case Detach =>
      c.(animating := false, state := if c.enabled then Normal else Disabled)
    case Complete =>
      c.(animating := false, state := Normal)
  }

  /** The configuration after a sequence of inputs. */
  function Run(c: Config, inputs: seq<Input>): Config
    decreases |inputs|
  {
    if inputs == [] then c else Run(Step(c, inputs[0]), inputs[1..])
  }

  /**
   * What every reachable configuration satisfies: the Animating state is only
   * shown while an animation runs, and Disabled only while the element is
   * disabled.
   */
  predicate Inv(c: Config) {
    (c.state == Animating ==> c.animating) && (c.state == Disabled ==> !c.enabled)
  }

  lemma StepPreservesInv(c: Config, i: Input)
    requires Inv(c)
    ensures Inv(Step(c, i))
  {
  }

  lemma {:induction false} RunPreservesInv(c: Config, inputs: seq<Input>)
    requires Inv(c)
    ensures Inv(Run(c, inputs))
    decreases |inputs|
  {
    if inputs != [] {
      StepPreservesInv(c, inputs[0]);
      RunPreservesInv(Step(c, inputs[0]), inputs[1..]);
    }
  }

  /** Pointer events and clicks: the inputs a user produces. */
  predicate UserInput(i: Input) {
    i.PointerDown? || i.PointerUp? || i.PointerOver? || i.PointerOut? || i.Click?
  }

  /** A blocked button ignores every user input. */
  lemma {:induction false} BlockedIgnoresUsers(c: Config, inputs: seq<Input>)
    requires Blocked(c.state)
    requires forall k :: 0 <= k < |inputs| ==> UserInput(inputs[k])
    ensures Run(c, inputs) == c
    decreases |inputs|
  {
    if inputs != [] {
      assert UserInput(inputs[0]);
      assert Step(c, inputs[0]) == c;
      BlockedIgnoresUsers(c, inputs[1..]);
    }
  }

  /**
   * Without the animation ending, the element being detached or re-enabled,
   * user input raises at most one reroll event: the first accepted click
   * enters Animating, which ignores all further clicks.
   */
  lemma {:induction false} OneRerollPerAnimation(c: Config, inputs: seq<Input>)
    requires forall k :: 0 <= k < |inputs| ==> UserInput(inputs[k])
    ensures Run(c, inputs).clicks <= c.clicks + 1
    decreases |inputs|
  {
    if inputs != [] {
      var next := Step(c, inputs[0]);
      assert UserInput(inputs[0]);
      if inputs[0].Click? && !Blocked(c.state) {
        BlockedIgnoresUsers(next, inputs[1..]);
      } else {
        OneRerollPerAnimation(next, inputs[1..]);
      }
    }
  }

  /**
   * The animation's completion lands in Normal even on a disabled element,
   * while stopping it by detaching lands in Disabled there.
   */
  lemma CompletionIgnoresEnabled(c: Config)
    requires !c.enabled
    ensures Step(c, Complete).state == Normal && !Step(c, Complete).enabled
    ensures Step(c, Detach).state == Disabled
  {
  }

  class RewardsRerollButton {
    var state: ButtonState
    var classList: set<string>
    var pickingMode: PickingMode
    var enabledSelf: bool
    var isAnimating: bool
    var animationElapsed: real
    var animationDuration: real
    /** How many times OnRerollClickedEvent has been raised. */
    var rerollClicks: nat
    /** Whether the pointer, click and detach callbacks are registered. */
    var callbacksRegistered: bool

    function Current(): Config
      reads this
    {
      Config(state, enabledSelf, isAnimating, rerollClicks)
    }

    /** The classes and picking mode show the state; the configuration is reachable. */
    ghost predicate Valid()
      reads this
    {
      classList == StateClasses(state) && pickingMode == StatePicking(state) &&
      Inv(Current()) && (!isAnimating ==> animationElapsed == 0.0)
    }

    constructor ()
      ensures Valid()
      ensures Current() == Config(Normal, true, false, 0)
      ensures classList == {} && pickingMode == Position
      ensures animationDuration == DefaultAnimationDuration && callbacksRegistered
    {
      state := Normal;
      classList := {};
      pickingMode := Position;
      enabledSelf := true;
      isAnimating := false;
      animationElapsed := 0.0;
      animationDuration := DefaultAnimationDuration;
      rerollClicks := 0;
      callbacksRegistered := true;
    }

    /** Moves to `newState`, swapping the state classes and the picking mode. */
    method SetState(newState: ButtonState)
      requires classList == StateClasses(state) && pickingMode == StatePicking(state)
      modifies this
      ensures state == newState
      ensures classList == StateClasses(newState) && pickingMode == StatePicking(newState)
      ensures old(state) == newState ==> unchanged(this)
      ensures enabledSelf == old(enabledSelf) && isAnimating == old(isAnimating)
      ensures animationElapsed == old(animationElapsed) && animationDuration == old(animationDuration)
      ensures rerollClicks == old(rerollClicks) && callbacksRegistered == old(callbacksRegistered)
    {
      if state == newState {
        return;
      }
      StateClassesRemoved(state);
      ClassNamesDistinct();
      classList := classList - {PressedClass, HoveredClass};
      assert classList == {};
      if newState == Pressed {
        classList := classList + {PressedClass};
      }
      if newState == Hovered {
        classList := classList + {HoveredClass};
      }
      pickingMode := if newState == Disabled || newState == Animating then Ignore else Position;
      state := newState;
    }

    method SetEnabled(enabled: bool)
      requires Valid()
      modifies this
      ensures Valid() && Current() == Step(old(Current()), Input.SetEnabled(enabled))
      ensures animationElapsed == old(animationElapsed) && animationDuration == old(animationDuration)
      ensures callbacksRegistered == old(callbacksRegistered)
    {
      enabledSelf := enabled;
      if enabled && state != Animating {
        SetState(Normal);
      } else if !enabled {
        SetState(Disabled);
      }
    }

    method OnDetachFromPanel()
      requires Valid()
      modifies this
      ensures Valid() && Current() == Step(old(Current()), Detach)
      ensures !callbacksRegistered && animationDuration == old(animationDuration)
    {
      StopDiceAnimation();
      callbacksRegistered := false;
    }

    method InternalRerollClicked()
      requires Valid()
      modifies this
      ensures Valid() && Current() == Step(old(Current()), Click)
      ensures Blocked(old(state)) ==> unchanged(this)
      ensures !Blocked(old(state)) ==> animationElapsed == 0.0
      ensures animationDuration == old(animationDuration)
      ensures callbacksRegistered == old(callbacksRegistered)
    {
      if state == Animating || state == Disabled {
        return;
      }
      rerollClicks := rerollClicks + 1;
      StartDiceAnimation();
    }

    method OnPointerDownRoll()
      requires Valid()
      modifies this
      ensures Valid() && Current() == Step(old(Current()), PointerDown)
      ensures animationElapsed == old(animationElapsed) && animationDuration == old(animationDuration)
      ensures callbacksRegistered == old(callbacksRegistered)
    {
      if !(state == Disabled || state == Animating) {
        SetState(Pressed);
      }
    }

    /** `isPointerOver` is the host's hit test of the pointer position. */
    method OnPointerUp(isPointerOver: bool)
      requires Valid()
      modifies this
      ensures Valid() && Current() == Step(old(Current()), PointerUp(isPointerOver))
      ensures animationElapsed == old(animationElapsed) && animationDuration == old(animationDuration)
      ensures callbacksRegistered == old(callbacksRegistered)
    {
      if state == Disabled || state == Animating {
        return;
      }
      SetState(if isPointerOver then Hovered else Normal);
    }

    method OnPointerOver()
      requires Valid()
      modifies this
      ensures Valid() && Current() == Step(old(Current()), PointerOver)
      ensures animationElapsed == old(animationElapsed) && animationDuration == old(animationDuration)
      ensures callbacksRegistered == old(callbacksRegistered)
    {
      if state == Normal {
        SetState(Hovered);
      }
    }

    method OnPointerOut()
      requires Valid()
      modifies this
      ensures Valid() && Current() == Step(old(Current()), PointerOut)
      ensures animationElapsed == old(animationElapsed) && animationDuration == old(animationDuration)
      ensures callbacksRegistered == old(callbacksRegistered)
    {
      if state == Hovered {
        SetState(Normal);
      }
    }

    /** Enters Animating with the clock at zero, unless already animating. */
    method StartDiceAnimation()
      requires Valid()
      modifies this
      ensures Valid()
      ensures old(state) == Animating ==> unchanged(this)
      ensures old(state) != Animating ==>
        state == Animating && isAnimating && animationElapsed == 0.0
      ensures enabledSelf == old(enabledSelf) && rerollClicks == old(rerollClicks)
      ensures animationDuration == old(animationDuration)
      ensures callbacksRegistered == old(callbacksRegistered)
    {
      if state == Animating {
        return;
      }
      isAnimating := true;
      SetState(Animating);
      animationElapsed := 0.0;
    }

    /** Ends the animation: clock reset, then Normal when enabled and Disabled otherwise. */
    method StopDiceAnimation()
      requires Valid()
      modifies this
      ensures Valid() && Current() == Step(old(Current()), Detach)
      ensures animationElapsed == 0.0 && animationDuration == old(animationDuration)
      ensures callbacksRegistered == old(callbacksRegistered)
    {
      isAnimating := false;
      animationElapsed := 0.0;
      if enabledSelf {
        SetState(Normal);
      } else {
        SetState(Disabled);
      }
    }

    /**
     * One frame of the scheduled animation, `deltaTime` seconds after the
     * previous one. The scheduler runs frames only while the animation is on;
     * the frame that reaches the end stops the animation and shows Normal.
     */
    method AnimationTick(deltaTime: real)
      requires Valid()
      modifies this
      ensures Valid()
      ensures !old(isAnimating) ==> unchanged(this)
      ensures old(isAnimating) && Completes(old(animationElapsed) + deltaTime, animationDuration) ==>
        Current() == Step(old(Current()), Complete) && animationElapsed == 0.0
      ensures old(isAnimating) && !Completes(old(animationElapsed) + deltaTime, animationDuration) ==>
        Current() == old(Current()) && animationElapsed == old(animationElapsed) + deltaTime
      ensures animationDuration == old(animationDuration)
      ensures callbacksRegistered == old(callbacksRegistered)
    {
      if !isAnimating {
        return;
      }
      animationElapsed := animationElapsed + deltaTime;
      if Completes(animationElapsed, animationDuration) {
        StopDiceAnimation();
        SetState(Normal);
      }
    }
  }
}
