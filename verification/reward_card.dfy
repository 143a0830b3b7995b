/**
 * The daily reward card element (Assets/Scripts/UI/Components/DailyRewardCardControl.cs):
 * the claim guard, the style classes chosen from the card's type, claimed
 * flag and reward type, the localised texts its bindings show, and the
 * reveal on first data.
 *
 * Texts are given as the localisation key and arguments handed to the
 * string table; the table itself belongs to the host.
 */
module RewardCard {
  import opened Optional
  import opened Rewards
  import opened Cards
  import PremiumButton

  /** A string-table entry and its format arguments. */
  datatype LocalizedText = LocalizedText(key: string, args: seq<int>)

  // Localisation keys of the DailyRewards table section.
  const DayLabelKey: string := "day-label"
  const CardStateLockedKey: string := "card-state-locked"
  const RewardTypeXPKey: string := "reward-type-xp"
  const RewardTypeGemsKey: string := "reward-type-gems"
  const RewardTypeTokensKey: string := "reward-type-tokens"
  const RewardTypeCoinsKey: string := "reward-type-coins"
  const RewardAmountFormatKey: string := "reward-amount-format"
  const RewardAmountLockedKey: string := "reward-amount-locked"
  const ClaimButtonTextKey: string := "claim-button-text"
  const ClaimButtonClaimedKey: string := "claim-button-claimed"

  // Style classes.
  const CardLockedClass: string := "card--locked"
  const CardCurrentClass: string := "card--current"
  const HeaderLockedClass: string := "card-header--locked"
  const HeaderClaimedClass: string := "card-header--claimed"
  const DayTextLockedClass: string := "card-header__day--locked"
  const DayTextClaimedClass: string := "card-header__day--claimed"
  const GradientLockedClass: string := "reward__gradient--locked"
  const GradientGemsClass: string := "reward__gradient--gems"
  const GradientTokensClass: string := "reward__gradient--tokens"
  const AmountLockedClass: string := "reward__amount--locked"
  const AmountGemsClass: string := "reward__amount--gems"
  const AmountTokensClass: string := "reward__amount--tokens"
  const AmountCoinsClass: string := "reward__amount--coins"
  const GlowGemsClass: string := "card__glow--gems"
  const GlowTokensClass: string := "card__glow--tokens"
  const CardRerollOutClass: string := "card--reroll-out"
  const CardRerollInClass: string := "card--reroll-in"
  const CardRevealedClass: string := "card--revealed"
  const CardSettleClass: string := "card--settle"
  const GlowPopClass: string := "card__glow--pop"

  const CardStateClasses: set<string> := {CardLockedClass, CardCurrentClass}
  const CardAnimationClasses: set<string> :=
    {CardRerollOutClass, CardRerollInClass, CardRevealedClass, CardSettleClass}
  const HeaderStateClasses: set<string> := {HeaderLockedClass, HeaderClaimedClass}
  const DayTextStateClasses: set<string> := {DayTextLockedClass, DayTextClaimedClass}
  const GradientStateClasses: set<string> := {GradientLockedClass, GradientGemsClass, GradientTokensClass}
  const AmountStateClasses: set<string> :=
    {AmountLockedClass, AmountGemsClass, AmountTokensClass, AmountCoinsClass}
  const GlowStateClasses: set<string> := {GlowGemsClass, GlowTokensClass}

  // Animation timings, in milliseconds.
  const RevealBaseDelay: int := 1280
  const RevealCardDelay: int := 100

  /** The class names each element's updates switch between are pairwise different. */
  lemma ClassNamesDistinct()
    ensures CardLockedClass != CardCurrentClass
    ensures HeaderLockedClass != HeaderClaimedClass
    ensures DayTextLockedClass != DayTextClaimedClass
    ensures GradientLockedClass != GradientGemsClass && GradientLockedClass != GradientTokensClass
    ensures GradientGemsClass != GradientTokensClass
    ensures AmountLockedClass != AmountGemsClass && AmountLockedClass != AmountTokensClass
    ensures AmountLockedClass != AmountCoinsClass && AmountGemsClass != AmountTokensClass
    ensures AmountGemsClass != AmountCoinsClass && AmountTokensClass != AmountCoinsClass
    ensures GlowGemsClass != GlowTokensClass
  {
    assert CardLockedClass[6] != CardCurrentClass[6];
    assert HeaderLockedClass[13] != HeaderClaimedClass[13];
    assert DayTextLockedClass[18] != DayTextClaimedClass[18];
    assert GradientLockedClass[18] != GradientGemsClass[18];
    assert GradientLockedClass[18] != GradientTokensClass[18];
    assert GradientGemsClass[18] != GradientTokensClass[18];
    assert AmountLockedClass[16] != AmountGemsClass[16];
    assert AmountLockedClass[16] != AmountTokensClass[16];
    assert AmountLockedClass[16] != AmountCoinsClass[16];
    assert AmountGemsClass[16] != AmountTokensClass[16];
    assert AmountGemsClass[16] != AmountCoinsClass[16];
    assert AmountTokensClass[16] != AmountCoinsClass[16];
    assert GlowGemsClass[12] != GlowTokensClass[12];
  }

  /** The animation classes of the card never name one of its state classes. */
  lemma AnimationClassesApart()
    ensures CardAnimationClasses !! CardStateClasses
  {
    assert CardRerollOutClass[6] != CardLockedClass[6] && CardRerollOutClass[6] != CardCurrentClass[6];
    assert CardRerollInClass[6] != CardLockedClass[6] && CardRerollInClass[6] != CardCurrentClass[6];
    assert CardRevealedClass[6] != CardLockedClass[6] && CardRevealedClass[6] != CardCurrentClass[6];
    assert CardSettleClass[6] != CardLockedClass[6] && CardSettleClass[6] != CardCurrentClass[6];
  }

  /**
   * The shape shared by the card, header and day-text updates: the first
   * class when `first` holds, otherwise the second when `second` holds,
   * otherwise neither.
   */
  function ExclusiveClass(firstClass: string, secondClass: string, first: bool, second: bool): (r: set<string>)
    requires firstClass != secondClass
    ensures firstClass in r <==> first
    ensures secondClass in r <==> !first && second
    ensures r <= {firstClass, secondClass}
  {
    if first then {firstClass} else if second then {secondClass} else {}
  }

  /** Day text classes: locked on a Locked card, claimed on a claimed card that is not Locked. */
  function DayTextClasses(t: ECardType, claimed: bool): (r: set<string>)
    ensures DayTextLockedClass in r <==> t == Locked
    ensures DayTextClaimedClass in r <==> t != Locked && claimed
    ensures r <= DayTextStateClasses
  {
    ClassNamesDistinct();
    ExclusiveClass(DayTextLockedClass, DayTextClaimedClass, t == Locked, claimed)
  }

  /** Header classes, chosen as the day text's. */
  function HeaderClasses(t: ECardType, claimed: bool): (r: set<string>)
    ensures HeaderLockedClass in r <==> t == Locked
    ensures HeaderClaimedClass in r <==> t != Locked && claimed
    ensures r <= HeaderStateClasses
  {
    ClassNamesDistinct();
    ExclusiveClass(HeaderLockedClass, HeaderClaimedClass, t == Locked, claimed)
  }

  /** Card classes: locked on a Locked card, current on the current day's card otherwise. */
  function CardClasses(t: ECardType, isCurrentDay: bool): (r: set<string>)
    ensures CardLockedClass in r <==> t == Locked
    ensures CardCurrentClass in r <==> t != Locked && isCurrentDay
    ensures r <= CardStateClasses
  {
    ClassNamesDistinct();
    ExclusiveClass(CardLockedClass, CardCurrentClass, t == Locked, isCurrentDay)
  }

  /** Gradient classes: locked on a Locked card, else gems or tokens; Coins and XP get none. */
  function GradientClasses(t: ECardType, rt: ERewardType): (r: set<string>)
    ensures GradientLockedClass in r <==> t == Locked
    ensures GradientGemsClass in r <==> t != Locked && rt == Gems
    ensures GradientTokensClass in r <==> t != Locked && rt == Tokens
    ensures r <= GradientStateClasses
  {
    ClassNamesDistinct();
    if t == Locked then {GradientLockedClass}
    else match rt
      case Gems => {GradientGemsClass}
      case Tokens => {GradientTokensClass}
      case _ => {}
  }

  /** Amount classes: locked on a Locked card, else gems, tokens or coins; XP gets none. */
  function AmountClasses(t: ECardType, rt: ERewardType): (r: set<string>)
    ensures AmountLockedClass in r <==> t == Locked
    ensures AmountGemsClass in r <==> t != Locked && rt == Gems
    ensures AmountTokensClass in r <==> t != Locked && rt == Tokens
    ensures AmountCoinsClass in r <==> t != Locked && rt == Coins
    ensures r <= AmountStateClasses
  {
    ClassNamesDistinct();
    if t == Locked then {AmountLockedClass}
    else match rt
      case Gems => {AmountGemsClass}
      case Tokens => {AmountTokensClass}
      case Coins => {AmountCoinsClass}
      case XP => {}
  }

  /** Glow classes: none on a Locked card, else gems or tokens. */
  function GlowClasses(t: ECardType, rt: ERewardType): (r: set<string>)
    ensures GlowGemsClass in r <==> t != Locked && rt == Gems
    ensures GlowTokensClass in r <==> t != Locked && rt == Tokens
    ensures r <= GlowStateClasses
  {
    ClassNamesDistinct();
    if t == Locked then {}
    else match rt
      case Gems => {GlowGemsClass}
      case Tokens => {GlowTokensClass}
      case _ => {}
  }

  /** At most one class of each element's state group is on, whatever the card. */
  lemma AtMostOneStateClass(t: ECardType, claimed: bool, isCurrentDay: bool, rt: ERewardType)
    ensures !(DayTextLockedClass in DayTextClasses(t, claimed) && DayTextClaimedClass in DayTextClasses(t, claimed))
    ensures !(HeaderLockedClass in HeaderClasses(t, claimed) && HeaderClaimedClass in HeaderClasses(t, claimed))
    ensures !(CardLockedClass in CardClasses(t, isCurrentDay) && CardCurrentClass in CardClasses(t, isCurrentDay))
    ensures forall a, b :: a in AmountClasses(t, rt) && b in AmountClasses(t, rt) ==> a == b
    ensures forall a, b :: a in GradientClasses(t, rt) && b in GradientClasses(t, rt) ==> a == b
    ensures forall a, b :: a in GlowClasses(t, rt) && b in GlowClasses(t, rt) ==> a == b
  {
  }

  /**
   * An element's class list after an update: the classes of its state group
   * are taken off and the chosen ones put on.
   */
  function Swap(classes: set<string>, group: set<string>, chosen: set<string>): set<string> {
    (classes - group) + chosen
  }

  /** After an update the group shows exactly the chosen classes; other classes stay. */
  lemma SwapShowsChosen(classes: set<string>, group: set<string>, chosen: set<string>)
    requires chosen <= group
    ensures Swap(classes, group, chosen) * group == chosen
    ensures forall c :: c !in group ==> (c in Swap(classes, group, chosen) <==> c in classes)
  {
  }

  /** The gradient label's text: the locked text on a Locked card, else the reward type's name. */
  function GradientText(t: ECardType, rt: ERewardType): (r: LocalizedText)
    ensures r.args == []
    ensures r.key == CardStateLockedKey <==> t == Locked
  {
    if t == Locked then LocalizedText(CardStateLockedKey, [])
    else LocalizedText(RewardTypeKey(rt), [])
  }

  /** The name key of each reward type. */
  function RewardTypeKey(rt: ERewardType): (key: string)
    ensures key != CardStateLockedKey
  {
    assert RewardTypeGemsKey[0] != CardStateLockedKey[0];
    match rt
    case Gems => RewardTypeGemsKey
    case Tokens => RewardTypeTokensKey
    case Coins => RewardTypeCoinsKey
    case XP => RewardTypeXPKey
  }

  /** On a card that is not Locked, the gradient text tells the reward types apart. */
  lemma GradientTextDistinguishes(t: ECardType, a: ERewardType, b: ERewardType)
    requires t != Locked
    ensures GradientText(t, a) == GradientText(t, b) <==> a == b
  {
    assert RewardTypeGemsKey[12] != RewardTypeTokensKey[12];
    assert RewardTypeGemsKey[12] != RewardTypeCoinsKey[12];
    assert RewardTypeGemsKey[12] != RewardTypeXPKey[12];
    assert RewardTypeTokensKey[12] != RewardTypeCoinsKey[12];
    assert RewardTypeTokensKey[12] != RewardTypeXPKey[12];
    assert RewardTypeCoinsKey[12] != RewardTypeXPKey[12];
  }

  /** The amount label's text: the locked text on a Locked card, else the amount formatted. */
  function AmountText(t: ECardType, amount: int): (r: LocalizedText)
    ensures t == Locked ==> r.args == []
    ensures t != Locked ==> r.args == [amount]
    ensures r.key == RewardAmountLockedKey <==> t == Locked
    ensures t != Locked ==> r.key == RewardAmountFormatKey
  {
    assert RewardAmountLockedKey[14] != RewardAmountFormatKey[14];
    if t == Locked then LocalizedText(RewardAmountLockedKey, [])
    else LocalizedText(RewardAmountFormatKey, [amount])
  }

  /** The day label's text, formatted with the day. */
  function DayText(day: int): (r: LocalizedText)
    ensures r.args == [day] && r.key == DayLabelKey
  {
    LocalizedText(DayLabelKey, [day])
  }

  /** Different days get different day labels. */
  lemma DayTextDistinguishes(a: int, b: int)
    ensures DayText(a) == DayText(b) <==> a == b
  {
  }

  /** The claim button's label: the claimed text once claimed, else the claim text. */
  function ClaimLabel(claimed: bool): (r: LocalizedText)
    ensures r.args == []
    ensures r.key == ClaimButtonClaimedKey <==> claimed
  {
    assert ClaimButtonClaimedKey[13] != ClaimButtonTextKey[13];
    if claimed then LocalizedText(ClaimButtonClaimedKey, [])
    else LocalizedText(ClaimButtonTextKey, [])
  }

  /** Whether the claim button is enabled: the card is not Locked and not yet claimed. */
  predicate ClaimEnabled(t: ECardType, claimed: bool) {
    t != Locked && !claimed
  }

  /** The delay, in milliseconds, before day `day`'s card is revealed. */
  function RevealDelay(day: int): (ms: int) {
    RevealBaseDelay + day * RevealCardDelay
  }

  /**
   * Reveals are staggered in day order: a card is revealed before another
   * exactly when its day comes first, each day 100 ms after the previous one.
   */
  lemma RevealStaggered(a: int, b: int)
    ensures RevealDelay(a) < RevealDelay(b) <==> a < b
    ensures RevealDelay(b) - RevealDelay(a) == (b - a) * RevealCardDelay
  {
  }

  /**
   * The delay is computed in 64-bit arithmetic from a 32-bit day, which
   * cannot overflow: the exact value always fits.
   */
  lemma RevealDelayFitsInLong(day: int)
    requires -0x8000_0000 <= day < 0x8000_0000
    ensures -0x8000_0000_0000_0000 <= RevealDelay(day) < 0x8000_0000_0000_0000
  {
  }

  /**
   * The schedules of the animation chains that the card does not keep a
   * handle to: the end of the settle, the glow start and the end of the glow pop.
   */
  datatype LooseSchedule = SettleEnd | GlowStart | GlowPopEnd

  /** What a click on the claim button leads to. */
  datatype ClickOutcome = ClaimRaised(day: int) | Ignored | NullDereference

  /**
   * The click handler as written: a click with no card data reaches the
   * warning in the ignore branch, which reads the missing card's type and
   * claimed flag.
   */
  function ClickOutcomeAsWritten(data: CardData?): (r: ClickOutcome)
    reads data
  {
    if data != null && data.cardType != Locked && !data.claimed then ClaimRaised(data.day)
    else if data == null then NullDereference
    else Ignored
  }

  /**
   * A click on an attached card that has not been given data (the click
   * callback is registered on attach, before any SetData) dereferences null.
   */
  lemma ClickWithoutDataDereferences()
    ensures ClickOutcomeAsWritten(null) == NullDereference
  {
  }

  /**
   * The click handler as intended: the claim is raised for the card's day
   * exactly when there is a card that is neither Locked nor claimed, and
   * ignored otherwise.
   */
  function ClickOutcomeOf(data: CardData?): (r: ClickOutcome)
    reads data
    ensures r != NullDereference
    ensures r.ClaimRaised? <==> data != null && ClaimEnabled(data.cardType, data.claimed)
    ensures r.ClaimRaised? ==> r.day == data.day
  {
    if data != null && data.cardType != Locked && !data.claimed then ClaimRaised(data.day)
    else Ignored
  }

  /** With card data present, the intended handler behaves as written. */
  lemma ClickOutcomeAgreesWithData(data: CardData)
    ensures ClickOutcomeOf(data) == ClickOutcomeAsWritten(data)
  {
  }

  /** A claim is raised exactly when the claim button shows as enabled for the card. */
  lemma ClaimGuardMatchesButton(data: CardData)
    ensures ClickOutcomeOf(data).ClaimRaised? <==> ClaimEnabled(data.cardType, data.claimed)
  {
  }

  class DailyRewardCardControl {
    var cardData: CardData?
    var initialized: bool
    var cardClasses: set<string>
    var headerClasses: set<string>
    var dayTextClasses: set<string>
    var gradientClasses: set<string>
    var amountClasses: set<string>
    var glowClasses: set<string>
    /** The amount label's text as last written by the class update; None until then. */
    var amountText: Option<LocalizedText>
    const claimButton: PremiumButton.PremiumButtonControl
    /** The days for which OnClaimEvent has been raised, in order. */
    var claimEvents: seq<int>
    /** The delays of the reveal animations started, in order. */
    var revealDelays: seq<int>
    /** The stored schedules that are pending: reroll-out, reroll-in and reveal. */
    var rerollOutScheduled: bool
    var rerollInScheduled: bool
    var revealScheduled: bool
    /** The pending schedules the card keeps no handle to, which no stop cancels. */
    var looseSchedules: multiset<LooseSchedule>
    /** Whether the claim-click and detach callbacks are registered (done on attach). */
    var callbacksRegistered: bool
    /** Whether the card's and its elements' bindings are set up (done on attach). */
    var bindingsActive: bool
    /** Whether the string database used for localised texts is still set; ClearData drops it. */
    var stringDatabaseSet: bool

    constructor (claimButton: PremiumButton.PremiumButtonControl)
      ensures this.claimButton == claimButton
      ensures cardData == null && !initialized
      ensures cardClasses == {} && headerClasses == {} && dayTextClasses == {}
      ensures gradientClasses == {} && amountClasses == {} && glowClasses == {}
      ensures amountText == None && claimEvents == [] && revealDelays == []
      ensures !rerollOutScheduled && !rerollInScheduled && !revealScheduled && looseSchedules == multiset{}
      ensures !callbacksRegistered && !bindingsActive && stringDatabaseSet
      ensures ChainValid()
    {
      this.claimButton := claimButton;
      cardData := null;
      initialized := false;
      cardClasses := {};
      headerClasses := {};
      dayTextClasses := {};
      gradientClasses := {};
      amountClasses := {};
      glowClasses := {};
      amountText := None;
      claimEvents := [];
      revealDelays := [];
      rerollOutScheduled := false;
      rerollInScheduled := false;
      revealScheduled := false;
      looseSchedules := multiset{};
      callbacksRegistered := false;
      bindingsActive := false;
      stringDatabaseSet := true;
    }

    /**
     * At most one stored schedule is pending, and the card shows the class
     * of the chain step that schedule ends.
     */
    predicate ChainValid()
      reads this
    {
      !(rerollOutScheduled && rerollInScheduled) &&
      !(rerollOutScheduled && revealScheduled) &&
      !(rerollInScheduled && revealScheduled) &&
      (rerollOutScheduled ==> CardRerollOutClass in cardClasses) &&
      (rerollInScheduled ==> CardRerollInClass in cardClasses) &&
      (revealScheduled ==> CardRevealedClass in cardClasses)
    }

    /**
     * Attach to a panel: registers the claim-click and detach callbacks and
     * sets up the bindings. The string database is not looked up again.
     */
    method OnAttachToPanel()
      modifies this`callbacksRegistered, this`bindingsActive
      ensures callbacksRegistered && bindingsActive
    {
      callbacksRegistered := true;
      bindingsActive := true;
    }

    /** Raises the claim for the card's day when the card can be claimed. */
    method OnClaimButtonClicked()
      modifies this`claimEvents
      ensures ClickOutcomeOf(cardData).ClaimRaised? ==> claimEvents == old(claimEvents) + [cardData.day]
      ensures !ClickOutcomeOf(cardData).ClaimRaised? ==> claimEvents == old(claimEvents)
    {
      if cardData != null && cardData.cardType != Locked && !cardData.claimed {
        claimEvents := claimEvents + [cardData.day];
      }
    }

    /** The type/claimed callback of the day text: updates the day text and header classes. */
    method UpdateDayTextClasses(t: ECardType, claimed: bool)
      modifies this`dayTextClasses, this`headerClasses
      ensures dayTextClasses == Swap(old(dayTextClasses), DayTextStateClasses, DayTextClasses(t, claimed))
      ensures headerClasses == Swap(old(headerClasses), HeaderStateClasses, HeaderClasses(t, claimed))
    {
      dayTextClasses := dayTextClasses - {DayTextLockedClass} - {DayTextClaimedClass};
      if t == Locked {
        dayTextClasses := dayTextClasses + {DayTextLockedClass};
      } else if claimed {
        dayTextClasses := dayTextClasses + {DayTextClaimedClass};
      }
      headerClasses := headerClasses - {HeaderLockedClass} - {HeaderClaimedClass};
      if t == Locked {
        headerClasses := headerClasses + {HeaderLockedClass};
      } else if claimed {
        headerClasses := headerClasses + {HeaderClaimedClass};
      }
    }

    method UpdateRewardGradientClasses(t: ECardType, rt: ERewardType)
      modifies this`gradientClasses
      ensures gradientClasses == Swap(old(gradientClasses), GradientStateClasses, GradientClasses(t, rt))
    {
      gradientClasses := gradientClasses - {GradientLockedClass} - {GradientGemsClass} - {GradientTokensClass};
      if t == Locked {
        gradientClasses := gradientClasses + {GradientLockedClass};
      } else {
        match rt {
          case Gems => gradientClasses := gradientClasses + {GradientGemsClass};
          case Tokens => gradientClasses := gradientClasses + {GradientTokensClass};
          case _ =>
        }
      }
    }

    /** Also writes the locked text on a Locked card. */
    method UpdateRewardAmountClasses(t: ECardType, rt: ERewardType)
      modifies this`amountClasses, this`amountText
      ensures amountClasses == Swap(old(amountClasses), AmountStateClasses, AmountClasses(t, rt))
      ensures t == Locked ==> amountText == Some(AmountText(t, 0))
      ensures t != Locked ==> amountText == old(amountText)
    {
      amountClasses := amountClasses - {AmountLockedClass} - {AmountGemsClass} - {AmountTokensClass} - {AmountCoinsClass};
      if t == Locked {
        amountText := Some(LocalizedText(RewardAmountLockedKey, []));
        amountClasses := amountClasses + {AmountLockedClass};
      } else {
        match rt {
          case Gems => amountClasses := amountClasses + {AmountGemsClass};
          case Tokens => amountClasses := amountClasses + {AmountTokensClass};
          case Coins => amountClasses := amountClasses + {AmountCoinsClass};
          case XP =>
        }
      }
    }

    method UpdateCardGlowClasses(t: ECardType, rt: ERewardType)
      modifies this`glowClasses
      ensures glowClasses == Swap(old(glowClasses), GlowStateClasses, GlowClasses(t, rt))
    {
      glowClasses := glowClasses - {GlowGemsClass} - {GlowTokensClass};
      if t != Locked {
        match rt {
          case Gems => glowClasses := glowClasses + {GlowGemsClass};
          case Tokens => glowClasses := glowClasses + {GlowTokensClass};
          case _ =>
        }
      }
    }

    /** The type/reward-type callback: gradient, amount and glow classes together. */
    method OnRewardTypeChanged(t: ECardType, rt: ERewardType)
      modifies this`gradientClasses, this`amountClasses, this`amountText, this`glowClasses
      ensures gradientClasses == Swap(old(gradientClasses), GradientStateClasses, GradientClasses(t, rt))
      ensures amountClasses == Swap(old(amountClasses), AmountStateClasses, AmountClasses(t, rt))
      ensures glowClasses == Swap(old(glowClasses), GlowStateClasses, GlowClasses(t, rt))
      ensures t == Locked ==> amountText == Some(AmountText(t, 0))
      ensures t != Locked ==> amountText == old(amountText)
    {
      UpdateRewardGradientClasses(t, rt);
      UpdateRewardAmountClasses(t, rt);
      UpdateCardGlowClasses(t, rt);
    }

    /** The type/current-day callback of the card element. */
    method OnCardStateChanged(t: ECardType, isCurrentDay: bool)
      modifies this`cardClasses
      ensures cardClasses == Swap(old(cardClasses), CardStateClasses, CardClasses(t, isCurrentDay))
      ensures old(ChainValid()) ==> ChainValid()
    {
      AnimationClassesApart();
      SwapShowsChosen(cardClasses, CardStateClasses, CardClasses(t, isCurrentDay));
      cardClasses := cardClasses - {CardLockedClass} - {CardCurrentClass};
      if t == Locked {
        cardClasses := cardClasses + {CardLockedClass};
      } else if isCurrentDay {
        cardClasses := cardClasses + {CardCurrentClass};
      }
    }

    /** The type/claimed callback of the claim button: enables it exactly when the card can be claimed. */
    method OnClaimStateChanged(t: ECardType, claimed: bool)
      requires claimButton.Valid()
      modifies claimButton`shownState, claimButton.button, claimButton.shadow
      ensures claimButton.Valid()
      ensures claimButton.button != null ==> claimButton.button.enabledSelf == ClaimEnabled(t, claimed)
      ensures claimButton.button != null && claimButton.shadow != null ==>
        claimButton.shadow.classList == PremiumButton.ShowState(old(claimButton.shadow.classList),
          if ClaimEnabled(t, claimed) then PremiumButton.Default else PremiumButton.Disabled)
    {
      claimButton.SetPremiumButtonEnabled(t != Locked && !claimed);
    }

    /**
     * Cancels the stored schedules and takes every animation class off. The
     * loose schedules stay pending.
     */
    method StopAllAnimations()
      modifies this`rerollOutScheduled, this`rerollInScheduled, this`revealScheduled, this`cardClasses, this`glowClasses
      ensures !rerollOutScheduled && !rerollInScheduled && !revealScheduled
      ensures cardClasses == old(cardClasses) - CardAnimationClasses
      ensures cardClasses * CardStateClasses == old(cardClasses) * CardStateClasses
      ensures glowClasses == old(glowClasses) - {GlowPopClass}
      ensures looseSchedules == old(looseSchedules)
      ensures ChainValid()
    {
      AnimationClassesApart();
      rerollOutScheduled := false;
      rerollInScheduled := false;
      revealScheduled := false;
      cardClasses := cardClasses - {CardRerollOutClass} - {CardRerollInClass} - {CardRevealedClass} - {CardSettleClass};
      glowClasses := glowClasses - {GlowPopClass};
    }

    /** Restarts the reveal of day `dayNumber`'s card after its staggered delay. */
    method Reveal(dayNumber: int)
      modifies this`rerollOutScheduled, this`rerollInScheduled, this`revealScheduled, this`cardClasses,
        this`glowClasses, this`revealDelays
      ensures revealScheduled && !rerollOutScheduled && !rerollInScheduled
      ensures revealDelays == old(revealDelays) + [RevealDelay(dayNumber)]
      ensures cardClasses == old(cardClasses) - CardAnimationClasses + {CardRevealedClass}
      ensures cardClasses * CardStateClasses == old(cardClasses) * CardStateClasses
      ensures glowClasses == old(glowClasses) - {GlowPopClass}
      ensures looseSchedules == old(looseSchedules)
      ensures ChainValid()
    {
      AnimationClassesApart();
      StopAllAnimations();
      var revealDelay := RevealDelay(dayNumber);
      cardClasses := cardClasses + {CardRevealedClass};
      revealDelays := revealDelays + [revealDelay];
      revealScheduled := true;
    }

    /** The reward-change callback: replays the reroll animation once the card is shown. */
    method OnRewardChanged()
      modifies this`rerollOutScheduled, this`rerollInScheduled, this`revealScheduled, this`cardClasses, this`glowClasses
      ensures initialized ==> rerollOutScheduled && !rerollInScheduled && !revealScheduled
      ensures initialized ==> cardClasses == old(cardClasses) - CardAnimationClasses + {CardRerollOutClass}
      ensures cardClasses * CardStateClasses == old(cardClasses) * CardStateClasses
      ensures initialized ==> glowClasses == old(glowClasses) - {GlowPopClass}
      ensures !initialized ==> unchanged(this)
      ensures initialized || old(ChainValid()) ==> ChainValid()
    {
      AnimationClassesApart();
      if initialized {
        StopAllAnimations();
        cardClasses := cardClasses + {CardRerollOutClass};
        rerollOutScheduled := true;
      }
    }

    /** The reroll-out schedule fires: the card turns from rolling out to rolling in. */
    method OnRerollOutElapsed()
      modifies this`rerollOutScheduled, this`rerollInScheduled, this`cardClasses
      ensures old(rerollOutScheduled) ==>
        (!rerollOutScheduled && rerollInScheduled &&
         cardClasses == old(cardClasses) - {CardRerollOutClass} + {CardRerollInClass})
      ensures !old(rerollOutScheduled) ==> unchanged(this)
      ensures old(ChainValid()) ==> ChainValid()
    {
      if rerollOutScheduled {
        cardClasses := cardClasses - {CardRerollOutClass};
        rerollOutScheduled := false;
        cardClasses := cardClasses + {CardRerollInClass};
        rerollInScheduled := true;
      }
    }

    /** The reroll-in schedule fires: the card settles, and the end of the settle is scheduled. */
    method OnRerollInElapsed()
      modifies this`rerollInScheduled, this`cardClasses, this`looseSchedules
      ensures old(rerollInScheduled) ==>
        (!rerollInScheduled &&
         cardClasses == old(cardClasses) - {CardRerollInClass} + {CardSettleClass} &&
         looseSchedules == old(looseSchedules) + multiset{SettleEnd})
      ensures !old(rerollInScheduled) ==> unchanged(this)
      ensures old(ChainValid()) ==> ChainValid()
    {
      if rerollInScheduled {
        cardClasses := cardClasses - {CardRerollInClass};
        rerollInScheduled := false;
        cardClasses := cardClasses + {CardSettleClass};
        looseSchedules := looseSchedules + multiset{SettleEnd};
      }
    }

    /** The reveal schedule fires: the card settles and the glow start is scheduled. */
    method OnRevealElapsed()
      modifies this`revealScheduled, this`cardClasses, this`looseSchedules
      ensures old(revealScheduled) ==>
        (!revealScheduled &&
         cardClasses == old(cardClasses) + {CardSettleClass} &&
         looseSchedules == old(looseSchedules) + multiset{GlowStart})
      ensures !old(revealScheduled) ==> unchanged(this)
      ensures old(ChainValid()) ==> ChainValid()
    {
      if revealScheduled {
        revealScheduled := false;
        cardClasses := cardClasses + {CardSettleClass};
        looseSchedules := looseSchedules + multiset{GlowStart};
      }
    }

    /** The settle-end schedule fires: the settle class comes off. */
    method OnSettleEndElapsed()
      modifies this`cardClasses, this`looseSchedules
      ensures SettleEnd !in old(looseSchedules) ==> unchanged(this)
      ensures SettleEnd in old(looseSchedules) ==>
        (cardClasses == old(cardClasses) - {CardSettleClass} &&
         looseSchedules == old(looseSchedules) - multiset{SettleEnd})
      ensures old(ChainValid()) ==> ChainValid()
    {
      if SettleEnd in looseSchedules {
        looseSchedules := looseSchedules - multiset{SettleEnd};
        cardClasses := cardClasses - {CardSettleClass};
      }
    }

    /** The glow-start schedule fires: the glow pops and the end of the pop is scheduled. */
    method OnGlowStartElapsed()
      modifies this`glowClasses, this`looseSchedules
      ensures GlowStart !in old(looseSchedules) ==> unchanged(this)
      ensures GlowStart in old(looseSchedules) ==>
        (glowClasses == old(glowClasses) + {GlowPopClass} &&
         looseSchedules == old(looseSchedules) - multiset{GlowStart} + multiset{GlowPopEnd})
    {
      if GlowStart in looseSchedules {
        glowClasses := glowClasses + {GlowPopClass};
        looseSchedules := looseSchedules - multiset{GlowStart} + multiset{GlowPopEnd};
      }
    }

    /** The glow-pop-end schedule fires: the pop class comes off. */
    method OnGlowPopEndElapsed()
      modifies this`glowClasses, this`looseSchedules
      ensures GlowPopEnd !in old(looseSchedules) ==> unchanged(this)
      ensures GlowPopEnd in old(looseSchedules) ==>
        (glowClasses == old(glowClasses) - {GlowPopClass} &&
         looseSchedules == old(looseSchedules) - multiset{GlowPopEnd})
    {
      if GlowPopEnd in looseSchedules {
        glowClasses := glowClasses - {GlowPopClass};
        looseSchedules := looseSchedules - multiset{GlowPopEnd};
      }
    }

    /**
     * Binds the card to `data`; the first call after construction or
     * ClearData also starts the card's reveal. That first call reads the
     * card's day, so it needs a card.
     */
    method SetData(data: CardData?)
      requires !initialized ==> data != null
      modifies this`cardData, this`initialized, this`rerollOutScheduled, this`rerollInScheduled,
        this`revealScheduled, this`cardClasses, this`glowClasses, this`revealDelays
      ensures cardData == data && initialized
      ensures old(initialized) ==> unchanged(this`rerollOutScheduled, this`rerollInScheduled,
        this`revealScheduled, this`cardClasses, this`glowClasses, this`revealDelays)
      ensures !old(initialized) ==> revealDelays == old(revealDelays) + [RevealDelay(data.day)]
      ensures !old(initialized) ==> cardClasses == old(cardClasses) - CardAnimationClasses + {CardRevealedClass}
      ensures !old(initialized) ==> revealScheduled && !rerollOutScheduled && !rerollInScheduled
    {
      cardData := data;
      if !initialized {
        Reveal(cardData.day);
        initialized := true;
      }
    }

    /** Forgets the card and the string database: the next SetData reveals again. */
    method ClearData()
      modifies this`cardData, this`initialized, this`stringDatabaseSet
      ensures cardData == null && !initialized && !stringDatabaseSet
    {
      initialized := false;
      cardData := null;
      stringDatabaseSet := false;
    }

    method OnDetachFromPanel()
      modifies this
      ensures !callbacksRegistered && !bindingsActive
      ensures cardData == null && !initialized && !stringDatabaseSet
      ensures !rerollOutScheduled && !rerollInScheduled && !revealScheduled
      ensures cardClasses == old(cardClasses) - CardAnimationClasses
      ensures glowClasses == old(glowClasses) - {GlowPopClass}
      ensures looseSchedules == old(looseSchedules)
      ensures claimEvents == old(claimEvents) && revealDelays == old(revealDelays)
      ensures dayTextClasses == old(dayTextClasses) && headerClasses == old(headerClasses)
      ensures gradientClasses == old(gradientClasses) && amountClasses == old(amountClasses)
      ensures amountText == old(amountText)
    {
      callbacksRegistered := false;
      StopAllAnimations();
      bindingsActive := false;
      ClearData();
    }
  }

}
