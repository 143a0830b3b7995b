/**
 * The reward kinds and the reward record (Assets/Scripts/Data/RewardData.cs).
 *
 * RewardData is a C# class whose two fields are only ever written by its
 * constructor; the reroll replaces a card's reward by a new object and never
 * mutates one in place, so it is a value here.
 */
module Rewards {

  /** ERewardType, constructors in declaration order. */
  datatype ERewardType = Coins | Gems | Tokens | XP

  /** Enum.GetValues(typeof(ERewardType)): the declared values, in declaration order. */
  const RewardTypes: seq<ERewardType> := [Coins, Gems, Tokens, XP]

  /** A reward: its kind and an amount that is not range-checked. */
  datatype RewardData = RewardData(rewardType: ERewardType, rewardAmount: int)

  /** The position of a kind in RewardTypes (its underlying enum value). */
  function Ordinal(t: ERewardType): (n: nat)
    ensures n < |RewardTypes| && RewardTypes[n] == t
    ensures forall m :: 0 <= m < |RewardTypes| && RewardTypes[m] == t ==> m == n
  {
    match t
    case Coins => 0
    case Gems => 1
    case Tokens => 2
    case XP => 3
  }
}
