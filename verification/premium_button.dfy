/**
 * The premium claim button (Assets/Scripts/UI/Components/PremiumButtonControl.cs):
 * an inner button whose pointer events and enabled flag drive which one of
 * four shadow classes its shadow element carries.
 */
module PremiumButton {
  /** The shadow's visual states (EButtonState). */
  datatype ShadowState = Default | Hover | Pressed | Disabled

  const ShadowDefaultClass: string := "shadow--default"
  const ShadowHoverClass: string := "shadow--hover"
  const ShadowPressedClass: string := "shadow--pressed"
  const ShadowDisabledClass: string := "shadow--disabled"
  const ShadowStateClasses: set<string> :=
    {ShadowDefaultClass, ShadowHoverClass, ShadowPressedClass, ShadowDisabledClass}

  /** The initial label (the PREMIUM_BUTTON_CLAIM key). */
  const DefaultLabel: string := "CLAIM"
  const DefaultAnimationDuration: real := 0.5
  /** The mouse button whose presses the shadow follows (the left one). */
  const LeftMouseButton: int := 0

  /** The class that shows state `s`. */
  function ShadowClass(s: ShadowState): (c: string)
    ensures c in ShadowStateClasses
  {
    match s
    case Default => ShadowDefaultClass
    case Hover => ShadowHoverClass
    case Pressed => ShadowPressedClass
    case Disabled => ShadowDisabledClass
  }

  /** Every state has its own class, and every shadow class belongs to a state. */
  lemma ShadowClassBijective()
    ensures forall s, t :: ShadowClass(s) == ShadowClass(t) ==> s == t
    ensures forall c :: c in ShadowStateClasses ==> exists s :: ShadowClass(s) == c
  {
    assert ShadowDefaultClass[8] != ShadowHoverClass[8];
    assert ShadowDefaultClass[8] != ShadowPressedClass[8];
    assert ShadowDefaultClass[9] != ShadowDisabledClass[9];
    assert ShadowHoverClass[8] != ShadowPressedClass[8];
    assert ShadowHoverClass[8] != ShadowDisabledClass[8];
    assert ShadowPressedClass[8] != ShadowDisabledClass[8];
    assert ShadowClass(Default) == ShadowDefaultClass;
    assert ShadowClass(Hover) == ShadowHoverClass;
    assert ShadowClass(Pressed) == ShadowPressedClass;
    assert ShadowClass(Disabled) == ShadowDisabledClass;
  }

  /** EnableInClassList: `name` is present exactly when `on`; no other class moves. */
  function EnableInClass(classes: set<string>, name: string, on: bool): (r: set<string>)
    ensures name in r <==> on
    ensures forall c :: c != name ==> (c in r <==> c in classes)
  {
    if on then classes + {name} else classes - {name}
  }

  /** The shadow classes that are on among `classes`. */
  function ShownClasses(classes: set<string>): set<string> {
    classes * ShadowStateClasses
  }

  /** The class list after showing state `s`. */
  function ShowState(classes: set<string>, s: ShadowState): set<string> {
    EnableInClass(EnableInClass(EnableInClass(EnableInClass(classes,
      ShadowDefaultClass, s == Default),
      ShadowHoverClass, s == Hover),
      ShadowPressedClass, s == Pressed),
      ShadowDisabledClass, s == Disabled)
  }

  /**
   * Showing a state leaves exactly its class on among the four and every
   * other class as it was.
   */
  lemma ShowStateExactlyOne(classes: set<string>, s: ShadowState)
    ensures ShownClasses(ShowState(classes, s)) == {ShadowClass(s)}
    ensures forall c :: c !in ShadowStateClasses ==> (c in ShowState(classes, s) <==> c in classes)
  {
    ShadowClassBijective();
    var r := ShowState(classes, s);
    forall c | c in ShadowStateClasses
      ensures c in r <==> c == ShadowClass(s)
    {
      var t :| ShadowClass(t) == c;
    }
  }

  /** Only the last state shown matters. */
  lemma ShowStateLastWins(classes: set<string>, s: ShadowState, t: ShadowState)
    ensures ShowState(ShowState(classes, s), t) == ShowState(classes, t)
  {
    ShowStateExactlyOne(classes, t);
    ShowStateExactlyOne(ShowState(classes, s), t);
    ShowStateExactlyOne(classes, s);
    ShadowClassBijective();
  }

  /** The inner Button element. */
  class InnerButton {
    var enabledSelf: bool
    var text: string

    constructor (enabled: bool, text: string)
      ensures enabledSelf == enabled && this.text == text
    {
      enabledSelf := enabled;
      this.text := text;
    }
  }

  /** The shadow element. */
  class ShadowElement {
    var classList: set<string>

    constructor (classes: set<string>)
      ensures classList == classes
    {
      classList := classes;
    }
  }

  class PremiumButtonControl {
    var button: InnerButton?
    var shadow: ShadowElement?
    var labelText: string
    var animationDuration: real
    /** How many times OnClickedEvent has been raised. */
    var clickedEvents: nat
    /** Whether the click, pointer and detach callbacks are registered. */
    var callbacksRegistered: bool
    /** The state the shadow shows. */
    ghost var shownState: ShadowState

    /** The shadow is usable exactly when the button can be used. */
    predicate Usable()
      reads this, button
    {
      button != null && button.enabledSelf
    }

    /**
     * The shadow carries exactly the class of the shown state, and shows
     * Disabled exactly when the button is missing or disabled.
     */
    ghost predicate Valid()
      reads this, button, shadow
    {
      shadow != null ==>
        ShownClasses(shadow.classList) == {ShadowClass(shownState)} &&
        (shownState == Disabled <==> !Usable())
    }

    /**
     * `treeLoaded` says whether the UXML resource was found; `foundButton` and
     * `foundShadow` are the elements it contains under the button and shadow
     * names (null when absent).
     */
    constructor (treeLoaded: bool, foundButton: InnerButton?, foundShadow: ShadowElement?)
      modifies foundButton, foundShadow
      ensures Valid()
      ensures labelText == DefaultLabel && animationDuration == DefaultAnimationDuration
      ensures clickedEvents == 0
      ensures treeLoaded ==> button == foundButton && shadow == foundShadow
      ensures !treeLoaded ==> button == null && shadow == null
      ensures callbacksRegistered <==> button != null
      ensures treeLoaded && foundButton != null ==>
        foundButton.text == DefaultLabel && foundButton.enabledSelf == old(foundButton.enabledSelf)
      ensures treeLoaded && foundShadow != null ==>
        foundShadow.classList == ShowState(old(foundShadow.classList), if Usable() then Default else Disabled)
    {
      labelText := DefaultLabel;
      animationDuration := DefaultAnimationDuration;
      clickedEvents := 0;
      shownState := Disabled;
      button := if treeLoaded then foundButton else null;
      shadow := if treeLoaded then foundShadow else null;
      callbacksRegistered := treeLoaded && foundButton != null;
      new;
      if treeLoaded {
        SetText(labelText);
        SetButtonState(if button != null && button.enabledSelf then Default else Disabled);
      }
    }

    /** Shows state `state` on the shadow; without a shadow nothing changes. */
    method SetButtonState(state: ShadowState)
      modifies this`shownState, shadow
      ensures shadow == null ==> unchanged(this)
      ensures shadow != null ==>
        shadow.classList == ShowState(old(shadow.classList), state) && shownState == state
      ensures shadow != null ==> ShownClasses(shadow.classList) == {ShadowClass(state)}
    {
      if shadow == null {
        return;
      }
      shadow.classList := EnableInClass(shadow.classList, ShadowDefaultClass, state == Default);
      shadow.classList := EnableInClass(shadow.classList, ShadowHoverClass, state == Hover);
      shadow.classList := EnableInClass(shadow.classList, ShadowPressedClass, state == Pressed);
      shadow.classList := EnableInClass(shadow.classList, ShadowDisabledClass, state == Disabled);
      shownState := state;
      ShowStateExactlyOne(old(shadow.classList), state);
    }

    /** Copies `text` onto the inner button, when there is one. */
    method SetText(text: string)
      modifies button
      ensures button != null ==> button.text == text && button.enabledSelf == old(button.enabledSelf)
      ensures button == null ==> unchanged(this)
    {
      if button != null {
        button.text := text;
      }
    }

    /** The label setter: stores the label and shows it on the button. */
    method SetLabel(value: string)
      requires Valid()
      modifies this`labelText, button
      ensures Valid() && labelText == value
      ensures button != null ==> button.text == value && button.enabledSelf == old(button.enabledSelf)
    {
      labelText := value;
      SetText(labelText);
    }

    method OnButtonClicked()
      modifies this`clickedEvents
      ensures clickedEvents == old(clickedEvents) + 1
    {
      clickedEvents := clickedEvents + 1;
    }

    method OnPointerEnter()
      requires Valid()
      modifies this`shownState, shadow
      ensures Valid()
      ensures Usable() && shadow != null ==> shadow.classList == ShowState(old(shadow.classList), Hover)
      ensures !Usable() ==> unchanged(this) && (shadow != null ==> unchanged(shadow))
    {
      if button != null && button.enabledSelf {
        SetButtonState(Hover);
      }
    }

    method OnPointerLeave()
      requires Valid()
      modifies this`shownState, shadow
      ensures Valid()
      ensures Usable() && shadow != null ==> shadow.classList == ShowState(old(shadow.classList), Default)
      ensures !Usable() ==> unchanged(this) && (shadow != null ==> unchanged(shadow))
    {
      if button != null && button.enabledSelf {
        SetButtonState(Default);
      }
    }

    /** `mouseButton` is the pressed button of the pointer event (0 is the left one). */
    method OnPointerDown(mouseButton: int)
      requires Valid()
      modifies this`shownState, shadow
      ensures Valid()
      ensures Usable() && mouseButton == LeftMouseButton && shadow != null ==>
        shadow.classList == ShowState(old(shadow.classList), Pressed)
      ensures !(Usable() && mouseButton == LeftMouseButton) ==> unchanged(this) && (shadow != null ==> unchanged(shadow))
    {
      if button != null && button.enabledSelf && mouseButton == 0 {
        SetButtonState(Pressed);
      }
    }

    method OnPointerUp(mouseButton: int)
      requires Valid()
      modifies this`shownState, shadow
      ensures Valid()
      ensures Usable() && mouseButton == LeftMouseButton && shadow != null ==>
        shadow.classList == ShowState(old(shadow.classList), Hover)
      ensures !(Usable() && mouseButton == LeftMouseButton) ==> unchanged(this) && (shadow != null ==> unchanged(shadow))
    {
      if button != null && button.enabledSelf && mouseButton == 0 {
        SetButtonState(Hover);
      }
    }

    /** Shows Default on an enabled button and Disabled on a disabled one. */
    method UpdateButtonStateFromEnabled()
      requires shadow != null ==> ShownClasses(shadow.classList) == {ShadowClass(shownState)}
      modifies this`shownState, shadow
      ensures button != null ==> Valid()
      ensures button != null && shadow != null ==>
        shadow.classList == ShowState(old(shadow.classList), if button.enabledSelf then Default else Disabled)
      ensures button == null ==> unchanged(this) && (shadow != null ==> unchanged(shadow))
    {
      if button == null {
        return;
      }
      SetButtonState(if button.enabledSelf then Default else Disabled);
    }

    method SetPremiumButtonEnabled(enabled: bool)
      requires Valid()
      modifies this`shownState, button, shadow
      ensures Valid()
      ensures button != null ==> button.enabledSelf == enabled && button.text == old(button.text)
      ensures button != null && shadow != null ==>
        shadow.classList == ShowState(old(shadow.classList), if enabled then Default else Disabled)
      ensures button == null ==> unchanged(this) && (shadow != null ==> unchanged(shadow))
    {
      if button != null {
        button.enabledSelf := enabled;
        UpdateButtonStateFromEnabled();
      }
    }

    /** Detaching unregisters the callbacks, which were only registered with a button. */
    method OnDetachFromPanel()
      modifies this`callbacksRegistered
      ensures button != null ==> !callbacksRegistered
      ensures button == null ==> callbacksRegistered == old(callbacksRegistered)
    {
      if button != null {
        callbacksRegistered := false;
      }
    }
  }
}
