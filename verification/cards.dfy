/**
 * The daily reward card record (Assets/Scripts/Data/CardData.cs).
 *
 * The data service sets `claimed` and replaces `reward` on cards it finds in a
 * list, so a card is an object with mutable fields.
 */
module Cards {
  import opened Optional
  import opened Rewards

  /** ECardType, constructors in declaration order. */
  datatype ECardType = Free | Premium | Locked

  class CardData {
    var day: int
    /** The C# field `type`; `type` is a keyword in Dafny. */
    var cardType: ECardType
    /** The reward reference, unchecked: None stands for null. */
    var reward: Option<RewardData>
    var claimed: bool
    /** Written by the view model and read by the card control's bindings. */
    var isCurrentDay: bool

    /** Stores every argument as given; `claimed` defaults to false. */
    constructor (day: int, cardType: ECardType, reward: Option<RewardData>, claimed: bool := false)
      ensures this.day == day && this.cardType == cardType
      ensures this.reward == reward && this.claimed == claimed
      ensures !isCurrentDay
    {
      this.day := day;
      this.cardType := cardType;
      this.reward := reward;
      this.claimed := claimed;
      this.isCurrentDay := false;
    }
  }

  /**
   * List<CardData>.Find(c => c.day == day) evaluates the predicate on each
   * element until it matches; a null element met before the match throws.
   * This holds when the search reaches a match or the end without meeting null.
   */
  predicate FindIsSafe(cards: seq<CardData?>, day: int)
    reads cards
  {
    forall i :: 0 <= i < |cards| && NoMatchBefore(cards, day, i) ==> cards[i] != null
  }

  /** No element before index `i` is a card for `day`, and none of them is null. */
  predicate NoMatchBefore(cards: seq<CardData?>, day: int, i: int)
    reads cards
    requires 0 <= i <= |cards|
  {
    forall j :: 0 <= j < i ==> cards[j] != null && cards[j].day != day
  }

  /** List<CardData>.Find(c => c.day == day): the first card for `day`, or null. */
  function FindCard(cards: seq<CardData?>, day: int): (r: CardData?)
    reads cards
    requires FindIsSafe(cards, day)
    ensures r == null <==> forall c :: c in cards ==> c != null && c.day != day
    ensures r != null ==> r in cards && r.day == day
    ensures r != null ==> exists i :: 0 <= i < |cards| && cards[i] == r && NoMatchBefore(cards, day, i)
  {
    FindFrom(cards, day, 0)
  }

  function FindFrom(cards: seq<CardData?>, day: int, i: nat): (r: CardData?)
    reads cards
    requires i <= |cards| && NoMatchBefore(cards, day, i) && FindIsSafe(cards, day)
    ensures r == null <==> forall c :: c in cards ==> c != null && c.day != day
    ensures r != null ==> r in cards && r.day == day
    ensures r != null ==> exists k :: i <= k < |cards| && cards[k] == r && NoMatchBefore(cards, day, k)
    decreases |cards| - i
  {
    if i == |cards| then null
    else if cards[i].day == day then cards[i]
    else FindFrom(cards, day, i + 1)
  }

  /** The cards of a list that are not null. */
  function Objects(cards: seq<CardData?>): (s: set<CardData>)
    ensures forall c :: c in cards && c != null ==> c in s
    ensures forall c :: c in s ==> c in cards
  {
    set c: CardData | c in cards
  }
}
