/** Reward-to-icon and icon-to-emoji mappings (Assets/Scripts/Utilities/RewardIconUtils.cs). */
module RewardIcons {
  import opened Rewards

  /** EIconType, constructors in declaration order. */
  datatype EIconType = Star | Crown | Gem | Lock

  const StarEmoji: string := "\U{2B50}"
  const CrownEmoji: string := "\U{1F451}"
  const GemEmoji: string := "\U{1F48E}"
  const LockEmoji: string := "\U{1F512}"
  /** The emoji of the source's fallback branch, which no declared icon reaches. */
  const UnknownEmoji: string := "\U{2753}"

  /** Coins and XP show a star, Gems a gem, Tokens a crown; no reward shows the lock. */
  function GetIconTypeForReward(rewardType: ERewardType): (icon: EIconType)
    ensures icon != Lock
    ensures icon == Star <==> rewardType == Coins || rewardType == XP
    ensures icon == Gem <==> rewardType == Gems
    ensures icon == Crown <==> rewardType == Tokens
  {
    match rewardType
    case Coins => Star
    case XP => Star
    case Gems => Gem
    case Tokens => Crown
  }

  function GetEmojiForIconType(iconType: EIconType): (emoji: string)
    ensures emoji != UnknownEmoji
    ensures |emoji| == 1
  {
    match iconType
    case Star => StarEmoji
    case Crown => CrownEmoji
    case Gem => GemEmoji
    case Lock => LockEmoji
  }

  /** Distinct icons show distinct emoji, and none shows the fallback. */
  lemma EmojiInjective(a: EIconType, b: EIconType)
    ensures GetEmojiForIconType(a) == GetEmojiForIconType(b) ==> a == b
  {
  }

  /** The emoji a reward's icon label shows: the composition the card's icon binding applies. */
  function RewardEmoji(rewardType: ERewardType): (emoji: string)
    ensures emoji != LockEmoji && emoji != UnknownEmoji
    ensures emoji == GemEmoji <==> rewardType == Gems
    ensures emoji == CrownEmoji <==> rewardType == Tokens
  {
    GetEmojiForIconType(GetIconTypeForReward(rewardType))
  }
}
