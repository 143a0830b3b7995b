/**
 * The coin and gem balances (Assets/Scripts/Data/CurrencyService.cs).
 *
 * The C# events OnCoinsChanged and OnGemsChanged are recorded in `events`, in
 * the order they are raised; a subscriber receives each of them (see the view
 * model). Balances are mathematical integers.
 */
module Currency {

  datatype CurrencyEvent = CoinsChanged(coins: int) | GemsChanged(gems: int)

  /** The balances a subscriber sees after receiving `events`, starting from `coins` and `gems`. */
  function Replay(coins: int, gems: int, events: seq<CurrencyEvent>): (int, int)
    decreases events
  {
    if events == [] then (coins, gems)
    else match events[0]
      case CoinsChanged(c) => Replay(c, gems, events[1..])
      case GemsChanged(g) => Replay(coins, g, events[1..])
  }

  /** Every event carries a value different from the balance it replaces. */
  predicate OnlyChanges(coins: int, gems: int, events: seq<CurrencyEvent>)
    decreases events
  {
    events == [] ||
    match events[0]
    case CoinsChanged(c) => c != coins && OnlyChanges(c, gems, events[1..])
    case GemsChanged(g) => g != gems && OnlyChanges(coins, g, events[1..])
  }

  /** Replaying two logs one after the other is replaying their concatenation. */
  lemma {:induction false} ReplayAppend(coins: int, gems: int, a: seq<CurrencyEvent>, b: seq<CurrencyEvent>)
    ensures Replay(coins, gems, a + b) == Replay(Replay(coins, gems, a).0, Replay(coins, gems, a).1, b)
    ensures OnlyChanges(coins, gems, a + b) <==>
      OnlyChanges(coins, gems, a) && OnlyChanges(Replay(coins, gems, a).0, Replay(coins, gems, a).1, b)
    decreases a
  {
    if a != [] {
      assert (a + b)[0] == a[0] && (a + b)[1..] == a[1..] + b;
      match a[0]
      case CoinsChanged(c) => ReplayAppend(c, gems, a[1..], b);
      case GemsChanged(g) => ReplayAppend(coins, g, a[1..], b);
    } else {
      assert a + b == b;
    }
  }

  /** A negative amount is treated as 0. */
  function NonNegative(amount: int): (r: int)
    ensures r >= 0 && r >= amount
    ensures amount >= 0 ==> r == amount
    ensures amount < 0 ==> r == 0
  {
    if amount < 0 then 0 else amount
  }

  /** Mathf.Max(0, balance - amount): the clamped result of a subtraction. */
  function ClampedSubtract(balance: int, amount: int): (r: int)
    ensures r >= 0
    ensures r >= balance - amount
    ensures r == balance - amount || r == 0
  {
    if balance - amount < 0 then 0 else balance - amount
  }

  class CurrencyService {
    var coins: int
    var gems: int
    /** OnCoinsChanged / OnGemsChanged, in the order raised. */
    var events: seq<CurrencyEvent>
    ghost const initialCoins: int
    ghost const initialGems: int

    /** The balances are the starting balances updated by the raised events, each a real change. */
    ghost predicate Valid()
      reads this
    {
      Replay(initialCoins, initialGems, events) == (coins, gems) &&
      OnlyChanges(initialCoins, initialGems, events)
    }

    /** Starts at the given balances (1000 coins and 25 gems by default) without raising an event. */
    constructor (initialCoins: int := 1000, initialGems: int := 25)
      ensures Valid()
      ensures coins == initialCoins && gems == initialGems && events == []
    {
      coins := initialCoins;
      gems := initialGems;
      events := [];
      this.initialCoins := initialCoins;
      this.initialGems := initialGems;
    }

    /** The Coins setter: raises OnCoinsChanged(value) only when the balance changes. */
    method SetCoins(value: int)
      requires Valid()
      modifies this
      ensures Valid()
      ensures coins == value && gems == old(gems)
      ensures events == old(events) + if old(coins) != value then [CoinsChanged(value)] else []
    {
      if coins != value {
        ReplayAppend(initialCoins, initialGems, events, [CoinsChanged(value)]);
        coins := value;
        events := events + [CoinsChanged(value)];
      }
    }

    /** The Gems setter: raises OnGemsChanged(value) only when the balance changes. */
    method SetGems(value: int)
      requires Valid()
      modifies this
      ensures Valid()
      ensures gems == value && coins == old(coins)
      ensures events == old(events) + if old(gems) != value then [GemsChanged(value)] else []
    {
      if gems != value {
        ReplayAppend(initialCoins, initialGems, events, [GemsChanged(value)]);
        gems := value;
        events := events + [GemsChanged(value)];
      }
    }

    method AddCoins(amount: int)
      requires Valid()
      modifies this
      ensures Valid()
      ensures coins == old(coins) + NonNegative(amount) && gems == old(gems)
      ensures coins >= old(coins)
      ensures events == old(events) + if amount > 0 then [CoinsChanged(coins)] else []
    {
      var a := amount;
      if a < 0 {
        a := 0;
      }
      SetCoins(coins + a);
    }

    method AddGems(amount: int)
      requires Valid()
      modifies this
      ensures Valid()
      ensures gems == old(gems) + NonNegative(amount) && coins == old(coins)
      ensures gems >= old(gems)
      ensures events == old(events) + if amount > 0 then [GemsChanged(gems)] else []
    {
      var a := amount;
      if a < 0 {
        a := 0;
      }
      SetGems(gems + a);
    }

    /** Subtracts, clamping at zero: the balance is never negative afterwards. */
    method SubtractCoins(amount: int)
      requires Valid()
      modifies this
      ensures Valid()
      ensures coins == ClampedSubtract(old(coins), NonNegative(amount)) && gems == old(gems)
      ensures coins >= 0
      ensures old(coins) >= 0 ==> coins <= old(coins)
      ensures events == old(events) + if coins != old(coins) then [CoinsChanged(coins)] else []
    {
      var a := amount;
      if a < 0 {
        a := 0;
      }
      var newCoins := if coins - a < 0 then 0 else coins - a;
      SetCoins(newCoins);
    }

    method SubtractGems(amount: int)
      requires Valid()
      modifies this
      ensures Valid()
      ensures gems == ClampedSubtract(old(gems), NonNegative(amount)) && coins == old(coins)
      ensures gems >= 0
      ensures old(gems) >= 0 ==> gems <= old(gems)
      ensures events == old(events) + if gems != old(gems) then [GemsChanged(gems)] else []
    {
      var a := amount;
      if a < 0 {
        a := 0;
      }
      var newGems := if gems - a < 0 then 0 else gems - a;
      SetGems(newGems);
    }
  }
}
