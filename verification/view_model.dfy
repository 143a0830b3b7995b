/**
 * The Daily Rewards view model (Assets/Scripts/Data/DailyRewardsViewModel.cs):
 * one card per day, the claim and reroll gates, the reroll budget and the
 * mirrored currency balances.
 *
 * The view model is the one subscriber of the currency service's events. The
 * service records each event it raises; after a claim the view model hands
 * every newly recorded event to its handler, in order.
 */
module RewardsViewModel {
  import opened Optional
  import opened Rewards
  import opened Cards
  import opened Currency
  import opened RewardsDataService

  /** propertyChanged (with the property name) and OnStateChangedEvent. */
  datatype ViewModelEvent = PropertyChanged(name: string) | StateChanged

  /** The card type a day starts with: Free up to the current day, Locked after it. */
  function InitialCardType(day: int, currentDay: int): (t: ECardType)
    ensures t != Premium
    ensures t == Free <==> day <= currentDay
  {
    if day < currentDay then Free
    else if day == currentDay then Free
    else Locked
  }

  /** The notifications a currency handler raises for one event. */
  function HandlerNote(e: CurrencyEvent): (notes: seq<ViewModelEvent>)
    ensures |notes| == 2 && notes[1] == StateChanged
    ensures notes[0] == PropertyChanged("CurrentCoins") <==> e.CoinsChanged?
  {
    match e
    case CoinsChanged(_) => [PropertyChanged("CurrentCoins"), StateChanged]
    case GemsChanged(_) => [PropertyChanged("CurrentGems"), StateChanged]
  }

  /** The notifications raised by handing `events` to the handlers, in order. */
  function HandlerNotes(events: seq<CurrencyEvent>): (notes: seq<ViewModelEvent>)
    ensures |notes| == 2 * |events|
    ensures forall i :: 0 <= i < |events| ==> notes[2 * i + 1] == StateChanged
  {
    if events == [] then []
    else HandlerNotes(events[..|events| - 1]) + HandlerNote(events[|events| - 1])
  }

  class DailyRewardsViewModel {
    var MaxRerolls: int
    var RerollCount: int
    var CurrentGems: int
    var CurrentCoins: int
    var Cards: seq<CardData>
    var CurrentDay: int
    const dataService: DailyRewardsDataService?
    const currencyService: CurrencyService?
    /** Notifications raised, in order. */
    ghost var log: seq<ViewModelEvent>

    /**
     * The reroll budget holds; card `i` is day `i + 1`, typed and flagged from
     * the current day, and holds a reward; the currency properties mirror the
     * service.
     */
    ghost predicate Valid()
      reads this, Cards, currencyService
    {
      MaxRerolls == 3 && 0 <= RerollCount <= MaxRerolls &&
      CurrentDay == (if dataService != null then dataService.CurrentDay else 0) &&
      (forall i :: 0 <= i < |Cards| ==>
        Cards[i].day == i + 1 && Cards[i].reward.Some? &&
        Cards[i].cardType == InitialCardType(i + 1, CurrentDay) &&
        Cards[i].isCurrentDay == (i + 1 == CurrentDay)) &&
      (currencyService != null ==>
        currencyService.Valid() &&
        CurrentCoins == currencyService.coins && CurrentGems == currencyService.gems)
    }

    /**
     * Subscribes to the currency service and copies its balances, then builds
     * one unclaimed card per reward: card `d` is day `d` with reward `d - 1`.
     */
    constructor (dataService: DailyRewardsDataService?, currencyService: CurrencyService?)
      requires currencyService != null ==> currencyService.Valid()
      ensures Valid()
      ensures this.dataService == dataService && this.currencyService == currencyService
      ensures MaxRerolls == 3 && RerollCount == 0
      ensures currencyService == null ==> CurrentCoins == 0 && CurrentGems == 0
      ensures CurrentDay == if dataService != null then 2 else 0
      ensures |Cards| == if dataService != null then |dataService.GetRewardData()| else 0
      ensures forall i :: 0 <= i < |Cards| ==>
        fresh(Cards[i]) && !Cards[i].claimed && Cards[i].reward == Some(dataService.GetRewardData()[i])
      ensures log == (if currencyService != null
                      then [PropertyChanged("CurrentCoins"), PropertyChanged("CurrentGems")] else []) +
                     [PropertyChanged("MaxRerolls"), PropertyChanged("RerollCount"), PropertyChanged("Cards")]
    {
      this.dataService := dataService;
      this.currencyService := currencyService;
      var coins, gems := 0, 0;
      ghost var notes: seq<ViewModelEvent> := [];
      if currencyService != null {
        coins, gems := currencyService.coins, currencyService.gems;
        notes := [PropertyChanged("CurrentCoins"), PropertyChanged("CurrentGems")];
      }
      var currentDay := if dataService != null then dataService.CurrentDay else 0;
      var initialRewards := if dataService != null then dataService.GetRewardData() else [];
      var cards: seq<CardData> := [];
      var day := 1;
      while day <= |initialRewards|
        invariant 1 <= day <= |initialRewards| + 1
        invariant |cards| == day - 1
        invariant forall i :: 0 <= i < |cards| ==>
          fresh(cards[i]) && cards[i].day == i + 1 && !cards[i].claimed &&
          cards[i].reward == Some(initialRewards[i]) &&
          cards[i].cardType == InitialCardType(i + 1, currentDay) &&
          cards[i].isCurrentDay == (i + 1 == currentDay)
      {
        var initialCardType := InitialCardType(day, currentDay);
        var card := new CardData(day, initialCardType, Some(initialRewards[day - 1]), false);
        card.isCurrentDay := day == currentDay;
        cards := cards + [card];
        day := day + 1;
      }
      CurrentCoins, CurrentGems := coins, gems;
      MaxRerolls, RerollCount := 3, 0;
      CurrentDay := currentDay;
      Cards := cards;
      log := notes + [PropertyChanged("MaxRerolls"), PropertyChanged("RerollCount"), PropertyChanged("Cards")];
    }

    /** OnCoinsChanged handler. */
    method HandleCoinsChanged(coins: int)
      modifies this
      ensures CurrentCoins == coins
      ensures CurrentGems == old(CurrentGems) && Cards == old(Cards) && RerollCount == old(RerollCount)
      ensures MaxRerolls == old(MaxRerolls) && CurrentDay == old(CurrentDay)
      ensures log == old(log) + [PropertyChanged("CurrentCoins"), StateChanged]
    {
      CurrentCoins := coins;
      log := log + [PropertyChanged("CurrentCoins"), StateChanged];
    }

    /** OnGemsChanged handler. */
    method HandleGemsChanged(gems: int)
      modifies this
      ensures CurrentGems == gems
      ensures CurrentCoins == old(CurrentCoins) && Cards == old(Cards) && RerollCount == old(RerollCount)
      ensures MaxRerolls == old(MaxRerolls) && CurrentDay == old(CurrentDay)
      ensures log == old(log) + [PropertyChanged("CurrentGems"), StateChanged]
    {
      CurrentGems := gems;
      log := log + [PropertyChanged("CurrentGems"), StateChanged];
    }

    /** Delivers currency events to their handlers in order. */
    method Deliver(events: seq<CurrencyEvent>)
      modifies this
      ensures (CurrentCoins, CurrentGems) == Replay(old(CurrentCoins), old(CurrentGems), events)
      ensures Cards == old(Cards) && RerollCount == old(RerollCount)
      ensures MaxRerolls == old(MaxRerolls) && CurrentDay == old(CurrentDay)
      ensures log == old(log) + HandlerNotes(events)
    {
      var i := 0;
      while i < |events|
        invariant 0 <= i <= |events|
        invariant (CurrentCoins, CurrentGems) == Replay(old(CurrentCoins), old(CurrentGems), events[..i])
        invariant Cards == old(Cards) && RerollCount == old(RerollCount)
        invariant MaxRerolls == old(MaxRerolls) && CurrentDay == old(CurrentDay)
        invariant log == old(log) + HandlerNotes(events[..i])
      {
        ReplayAppend(old(CurrentCoins), old(CurrentGems), events[..i], [events[i]]);
        assert events[..i + 1] == events[..i] + [events[i]];
        assert events[..i + 1][..i] == events[..i];
        match events[i] {
          case CoinsChanged(c) => HandleCoinsChanged(c);
          case GemsChanged(g) => HandleGemsChanged(g);
        }
        i := i + 1;
      }
      assert events[..i] == events;
    }

    /**
     * Claims the card for `day`: an unknown day or a claimed card changes
     * nothing; otherwise the data service marks it claimed and credits its
     * reward, and the new balances reach the view model.
     */
    method ClaimReward(day: int)
      requires Valid()
      modifies this, Cards, currencyService
      ensures Valid()
      ensures Cards == old(Cards) && RerollCount == old(RerollCount)
      ensures var card := old(FindCard(Cards, day));
        card == null || old(card.claimed) || dataService == null ==>
          log == old(log) && CurrentCoins == old(CurrentCoins) && CurrentGems == old(CurrentGems)
      ensures var card := old(FindCard(Cards, day));
        card != null && !old(card.claimed) && dataService != null ==>
          log == old(log) + ClaimNotes(old(if currencyService != null then currencyService.events else []))
      ensures currencyService == null ==> CurrentCoins == old(CurrentCoins) && CurrentGems == old(CurrentGems)
      ensures var card := old(FindCard(Cards, day));
        if card == null || old(card.claimed) || dataService == null || currencyService == null then
          (forall c :: c in Cards ==> unchanged(c)) &&
          (currencyService != null ==> unchanged(currencyService))
        else
          var credit := Credit(old(card.reward.value));
          card.claimed && card.reward == old(card.reward) &&
          (forall c :: c in Cards && c != card ==> unchanged(c)) &&
          CurrentCoins == old(CurrentCoins) + credit.0 &&
          CurrentGems == old(CurrentGems) + credit.1
    {
      var card := FindCard(Cards, day);
      if card == null {
        return;
      }
      if card.claimed {
        return;
      }
      if dataService != null {
        DelegateClaim(day, card);
      }
    }

    /**
     * Hands the currency events raised after the first `seen` ones to their
     * handlers; the balances then mirror the service again.
     */
    method SyncBalances(seen: nat)
      requires currencyService != null && currencyService.Valid()
      requires seen <= |currencyService.events|
      requires Replay(currencyService.initialCoins, currencyService.initialGems, currencyService.events[..seen])
        == (CurrentCoins, CurrentGems)
      modifies this
      ensures CurrentCoins == currencyService.coins && CurrentGems == currencyService.gems
      ensures Cards == old(Cards) && RerollCount == old(RerollCount)
      ensures MaxRerolls == old(MaxRerolls) && CurrentDay == old(CurrentDay)
      ensures log == old(log) + HandlerNotes(currencyService.events[seen..])
    {
      var events := currencyService.events;
      ReplayAppend(currencyService.initialCoins, currencyService.initialGems, events[..seen], events[seen..]);
      assert events[..seen] + events[seen..] == events;
      Deliver(events[seen..]);
    }

    /**
     * The notifications of a delegated claim: the currency handlers' for the
     * events raised after `before`, then Cards and the state change.
     */
    ghost function ClaimNotes(before: seq<CurrencyEvent>): (notes: seq<ViewModelEvent>)
      reads this, currencyService
    {
      (if currencyService != null && |before| <= |currencyService.events|
       then HandlerNotes(currencyService.events[|before|..]) else []) +
      [PropertyChanged("Cards"), StateChanged]
    }

    /** The claim handed to the data service, for a found unclaimed card. */
    method DelegateClaim(day: int, card: CardData)
      requires Valid() && dataService != null
      requires card == FindCard(Cards, day) && !card.claimed
      modifies this, Cards, currencyService
      ensures Valid()
      ensures Cards == old(Cards) && RerollCount == old(RerollCount)
      ensures currencyService == null ==> forall c :: c in Cards ==> unchanged(c)
      ensures currencyService == null ==> CurrentCoins == old(CurrentCoins) && CurrentGems == old(CurrentGems)
      ensures log == old(log) + ClaimNotes(old(if currencyService != null then currencyService.events else []))
      ensures currencyService != null ==>
        var credit := Credit(old(card.reward.value));
        card.claimed && card.reward == old(card.reward) &&
        (forall c :: c in Cards && c != card ==> unchanged(c)) &&
        CurrentCoins == old(CurrentCoins) + credit.0 &&
        CurrentGems == old(CurrentGems) + credit.1
    {
      var seen := if currencyService != null then |currencyService.events| else 0;
      dataService.ClaimReward(day, Cards, currencyService);
      assert forall i :: 0 <= i < |Cards| ==> Cards[i] in Cards;
      if currencyService != null {
        assert currencyService.events[..seen] == old(currencyService.events);
        SyncBalances(seen);
      }
      log := log + [PropertyChanged("Cards"), StateChanged];
    }

    /**
     * Spends one reroll while any are left and rerolls every unclaimed card;
     * at the limit nothing changes. The counter moves even without a data
     * service.
     */
    method Reroll()
      requires Valid()
      modifies this, Cards
      ensures Valid()
      ensures Cards == old(Cards) && CurrentCoins == old(CurrentCoins) && CurrentGems == old(CurrentGems)
      ensures old(RerollCount) < MaxRerolls ==> RerollCount == old(RerollCount) + 1
      ensures old(RerollCount) >= MaxRerolls ==> RerollCount == old(RerollCount)
      ensures old(RerollCount) >= MaxRerolls || dataService == null ==> forall c :: c in Cards ==> unchanged(c)
      ensures forall c :: c in Cards ==> c.claimed == old(c.claimed) && (old(c.claimed) ==> c.reward == old(c.reward))
      ensures old(RerollCount) < MaxRerolls && dataService != null ==>
        forall c :: c in Cards && !c.claimed ==> InRerollRange(c.reward.value)
      ensures old(RerollCount) >= MaxRerolls ==> log == old(log)
      ensures old(RerollCount) < MaxRerolls ==>
        log == old(log) + [PropertyChanged("RerollCount")] +
          (if dataService != null then [PropertyChanged("Cards"), StateChanged] else [])
    {
      if RerollCount < MaxRerolls {
        RerollCount := RerollCount + 1;
        log := log + [PropertyChanged("RerollCount")];
        if dataService != null {
          dataService.RerollUnclaimedRewards(Some(Cards));
          log := log + [PropertyChanged("Cards"), StateChanged];
        }
      }
    }
  }
}
