/**
 * The reward data source and the claim and reroll operations on a card list
 * (Assets/Scripts/Data/DailyRewardsDataService.cs).
 *
 * System.Random becomes a nondeterministic choice: the reroll picks any
 * declared reward kind and any amount in that kind's range.
 */
module RewardsDataService {
  import opened Optional
  import opened Rewards
  import opened Cards
  import opened Currency

  /** Inclusive bounds of a rerolled amount per kind: Random.Next(lo, hi + 1). */
  function RerollRange(t: ERewardType): (bounds: (int, int))
    ensures 0 < bounds.0 <= bounds.1
  {
    match t
    case Coins => (50, 200)
    case Gems => (5, 20)
    case Tokens => (2, 10)
    case XP => (25, 100)
  }

  predicate InRerollRange(r: RewardData)
  {
    RerollRange(r.rewardType).0 <= r.rewardAmount <= RerollRange(r.rewardType).1
  }

  /**
   * The values the two random calls of one reroll may return: an index
   * below the number of kinds, then an amount in the drawn kind's range.
   */
  predicate RerollDraw(k: int, amount: int)
  {
    0 <= k < |RewardTypes| &&
    RerollRange(RewardTypes[k]).0 <= amount <= RerollRange(RewardTypes[k]).1
  }

  /** The reward a reroll builds from its two draws. */
  function DrawnReward(k: int, amount: int): (r: RewardData)
    requires 0 <= k < |RewardTypes|
    ensures r.rewardType in RewardTypes && r.rewardAmount == amount
  {
    RewardData(RewardTypes[k], amount)
  }

  /** What a claim of `r` adds to (coins, gems): Tokens and XP credit nothing. */
  function Credit(r: RewardData): (delta: (int, int))
    ensures delta.0 >= 0 && delta.1 >= 0
    ensures r.rewardType != Coins ==> delta.0 == 0
    ensures r.rewardType != Gems ==> delta.1 == 0
    ensures r.rewardType == Coins && r.rewardAmount >= 0 ==> delta == (r.rewardAmount, 0)
    ensures r.rewardType == Gems && r.rewardAmount >= 0 ==> delta == (0, r.rewardAmount)
  {
    match r.rewardType
    case Coins => (NonNegative(r.rewardAmount), 0)
    case Gems => (0, NonNegative(r.rewardAmount))
    case Tokens => (0, 0)
    case XP => (0, 0)
  }

  /** The card a claim would mark: found for `day`, not yet claimed, holding a reward. */
  predicate Claimable(day: int, rewards: seq<CardData?>, currencyService: CurrencyService?)
    reads rewards
    requires currencyService != null ==> FindIsSafe(rewards, day)
  {
    currencyService != null &&
    var card := FindCard(rewards, day);
    card != null && !card.claimed && card.reward.Some?
  }

  class DailyRewardsDataService {
    /** Today is day 2; the property has a private setter that nothing calls. */
    const CurrentDay: int := 2

    constructor ()
      ensures CurrentDay == 2
    {
    }

    /** One reward of every kind, in declaration order, each inside its reroll range. */
    function GetRewardData(): (r: seq<RewardData>)
      ensures |r| == |RewardTypes|
      ensures forall i :: 0 <= i < |r| ==> r[i].rewardType == RewardTypes[i] && InRerollRange(r[i])
      ensures r[0].rewardAmount == 100 && r[1].rewardAmount == 10
      ensures r[2].rewardAmount == 5 && r[3].rewardAmount == 50
    {
      [RewardData(Coins, 100), RewardData(Gems, 10), RewardData(Tokens, 5), RewardData(XP, 50)]
    }

    /**
     * Marks the first card for `day` claimed and credits its reward. A missing
     * currency service, a missing card, a claimed card or a missing reward
     * changes nothing.
     */
    method ClaimReward(day: int, rewards: seq<CardData?>, currencyService: CurrencyService?)
      requires currencyService != null ==> currencyService.Valid() && FindIsSafe(rewards, day)
      modifies rewards, currencyService
      ensures currencyService != null ==> currencyService.Valid()
      ensures currencyService != null ==> old(currencyService.events) <= currencyService.events
      ensures !old(Claimable(day, rewards, currencyService)) ==>
        (forall c :: c in rewards && c != null ==> unchanged(c)) &&
        (currencyService != null ==> unchanged(currencyService))
      ensures old(Claimable(day, rewards, currencyService)) ==>
        var card := old(FindCard(rewards, day));
        var credit := Credit(old(card.reward.value));
        card.claimed &&
        card.day == old(card.day) && card.cardType == old(card.cardType) &&
        card.reward == old(card.reward) && card.isCurrentDay == old(card.isCurrentDay) &&
        (forall c :: c in rewards && c != null && c != card ==> unchanged(c)) &&
        currencyService.coins == old(currencyService.coins) + credit.0 &&
        currencyService.gems == old(currencyService.gems) + credit.1
    {
      if currencyService == null {
        return;
      }
      var card := FindCard(rewards, day);
      if card == null {
        return;
      }
      if card.claimed {
        return;
      }
      var details := card.reward;
      if details.None? {
        return;
      }
      match details.value.rewardType {
        case Coins =>
          currencyService.AddCoins(details.value.rewardAmount);
        case Gems =>
          currencyService.AddGems(details.value.rewardAmount);
        case Tokens =>
        case XP =>
      }
      card.claimed := true;
    }

    /**
     * Gives every unclaimed card of the list a fresh reward: any kind, with an
     * amount inside that kind's range. Claimed cards keep their reward, null
     * entries are skipped, and no card's day, type or claimed flag changes.
     * A null list is a no-op.
     */
    method RerollUnclaimedRewards(rewards: Option<seq<CardData?>>)
      modifies if rewards.Some? then Objects(rewards.value) else {}
      ensures rewards.Some? ==> forall c :: c in rewards.value && c != null ==>
        c.day == old(c.day) && c.cardType == old(c.cardType) &&
        c.claimed == old(c.claimed) && c.isCurrentDay == old(c.isCurrentDay) &&
        (old(c.claimed) ==> c.reward == old(c.reward)) &&
        (!old(c.claimed) ==> c.reward.Some? && InRerollRange(c.reward.value))
    {
      if rewards.None? {
        return;
      }
      var list := rewards.value;
      var i := 0;
      while i < |list|
        invariant 0 <= i <= |list|
        invariant forall c :: c in list && c != null ==>
          c.day == old(c.day) && c.cardType == old(c.cardType) &&
          c.claimed == old(c.claimed) && c.isCurrentDay == old(c.isCurrentDay)
        invariant forall c :: c in list && c != null && c !in list[..i] ==> c.reward == old(c.reward)
        invariant forall c :: c in list[..i] && c != null ==>
          (old(c.claimed) ==> c.reward == old(c.reward)) &&
          (!old(c.claimed) ==> c.reward.Some? && InRerollRange(c.reward.value))
      {
        var card := list[i];
        if card != null && !card.claimed {
          assert RerollDraw(0, RerollRange(RewardTypes[0]).0);
          var k: int, newAmount: int :| RerollDraw(k, newAmount);
          assert RerollDraw(k, newAmount);
          var drawn := DrawnReward(k, newAmount);
          DrawsCoverRerollRange(drawn);
          card.reward := Some(drawn);
        }
        assert list[..i + 1] == list[..i] + [list[i]];
        i := i + 1;
      }
      assert list[..i] == list;
    }
  }

  /**
   * The rewards the reroll can build are exactly the in-range rewards: every
   * legal draw lands in its kind's range, and every kind with every amount
   * in its range comes out of some draw.
   */
  lemma DrawsCoverRerollRange(r: RewardData)
    ensures InRerollRange(r) <==> exists k, a :: RerollDraw(k, a) && DrawnReward(k, a) == r
  {
    if InRerollRange(r) {
      var k := Ordinal(r.rewardType);
      assert RerollDraw(k, r.rewardAmount) && DrawnReward(k, r.rewardAmount) == r;
    }
  }
}
