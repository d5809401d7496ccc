/**
 * Buying from the shop: the guards of Buy (dead player, unregistered player,
 * unknown id, permission groups, level window), the per-type purchases with
 * their prices and the dino refund, the amount of the "Total Spent Points"
 * log line, and the chat command that calls Buy.
 */
module StorePurchase {
  import opened Wrappers
  import opened Text
  import opened StoreCatalog

  // The GetText keys of the messages sent to the buyer.
  const WrongId := "WrongId"
  const NoPermissionsStore := "NoPermissionsStore"
  const BadLevel := "BadLevel"
  const NoPoints := "NoPoints"
  const BoughtItem := "BoughtItem"
  const BoughtDino := "BoughtDino"
  const RefundError := "RefundError"
  const BoughtBeacon := "BoughtBeacon"
  const BoughtExp := "BoughtExp"
  const RidingDino := "RidingDino"
  const BuyUsage := "BuyUsage"

  // ---------------------------------------------------------------- points

  type Balances = map<string, int>

  /** GetPoints: the balance of a registered player, 0 for anyone else. */
  function PointsOf(b: Balances, eosId: string): int
  {
    if eosId in b then b[eosId] else 0
  }

  /** When SpendPoints accepts: a registered player, an amount that is not negative and not above the balance. */
  predicate CanSpend(b: Balances, eosId: string, amount: int)
  {
    eosId in b && 0 <= amount <= b[eosId]
  }

  function Debit(b: Balances, eosId: string, amount: int): (r: Balances)
    requires eosId in b
    ensures r.Keys == b.Keys && r[eosId] == b[eosId] - amount
    ensures forall e :: e in b && e != eosId ==> r[e] == b[e]
  {
    b[eosId := b[eosId] - amount]
  }

  function Credit(b: Balances, eosId: string, amount: int): (r: Balances)
    ensures r.Keys == b.Keys
    ensures eosId in b ==> r[eosId] == b[eosId] + amount
    ensures forall e :: e in b && e != eosId ==> r[e] == b[e]
  {
    if eosId in b then b[eosId := b[eosId] + amount] else b
  }

  /** A refund gives back exactly what was taken. */
  lemma RefundRestores(b: Balances, eosId: string, amount: int)
    requires eosId in b
    ensures Credit(Debit(b, eosId, amount), eosId, amount) == b
  {
    var r := Credit(Debit(b, eosId, amount), eosId, amount);
    assert forall e :: e in b ==> r[e] == b[e];
  }

  /** The points store the shop spends from and refunds to. */
  class PointsStore {
    var balances: Balances

    constructor (initial: Balances)
      ensures balances == initial
    {
      balances := initial;
    }

    function GetPoints(eosId: string): int
      reads this
    {
      PointsOf(balances, eosId)
    }

    method SpendPoints(amount: int, eosId: string) returns (ok: bool)
      modifies this
      ensures ok == CanSpend(old(balances), eosId, amount)
      ensures balances == if ok then Debit(old(balances), eosId, amount) else old(balances)
    {
      ok := CanSpend(balances, eosId, amount);
      if ok {
        balances := Debit(balances, eosId, amount);
      }
    }

    method AddPoints(amount: int, eosId: string) returns (ok: bool)
      modifies this
      ensures ok == (eosId in old(balances))
      ensures balances == Credit(old(balances), eosId, amount)
    {
      ok := eosId in balances;
      balances := Credit(balances, eosId, amount);
    }
  }

  // ---------------------------------------------------------------- the purchases by type

  /** The buyer as the host reports it. */
  datatype Buyer = Buyer(eosId: string, dead: bool, level: int, ridingDino: bool)

  /** What one purchase function does: its result, the message it sends, and the balances after it. */
  datatype Outcome = Outcome(success: bool, message: Option<string>, balances: Balances)

  /** `points >= price && SpendPoints(price)`, confirming with `okMessage` or sending NoPoints. */
  function SpendOutcome(b: Balances, eosId: string, price: int, okMessage: string): Outcome
  {
    if PointsOf(b, eosId) >= price && CanSpend(b, eosId, price) then
      Outcome(true, Some(okMessage), Debit(b, eosId, price))
    else Outcome(false, Some(NoPoints), b)
  }

  /** BuyItem: the wrapped total of price and amount; nothing at all when it is not positive. */
  function ItemOutcome(b: Balances, eosId: string, item: ShopItem, amount: int): Outcome
  {
    var a := if amount <= 0 then 1 else amount;
    var total := TotalPrice(item.price, a);
    if total <= 0 then Outcome(false, None, b) else SpendOutcome(b, eosId, total, BoughtItem)
  }

  /** BuyDino: pay, then the dino is given, or the price is refunded. */
  function DinoOutcome(b: Balances, eosId: string, item: ShopItem, dinoGiven: bool): Outcome
  {
    var price := IntPrice(item);
    if !(PointsOf(b, eosId) >= price && CanSpend(b, eosId, price)) then Outcome(false, Some(NoPoints), b)
    else if dinoGiven then Outcome(true, Some(BoughtDino), Debit(b, eosId, price))
    else Outcome(false, Some(RefundError), Credit(Debit(b, eosId, price), eosId, price))
  }

  /** BuyExperience: refused while riding unless the experience goes to the dino. */
  function ExperienceOutcome(b: Balances, eosId: string, item: ShopItem, riding: bool): Outcome
  {
    if !item.giveToDino && riding then Outcome(false, Some(RidingDino), b)
    else SpendOutcome(b, eosId, IntPrice(item), BoughtExp)
  }

  /** The purchase function Buy dispatches to by "Type"; an unknown type buys nothing and says nothing. */
  function TypeOutcome(b: Balances, buyer: Buyer, item: ShopItem, amount: int, dinoGiven: bool): Outcome
  {
    var t := item.itemType;
    if t == "item" then ItemOutcome(b, buyer.eosId, item, amount)
    else if t == "dino" then DinoOutcome(b, buyer.eosId, item, dinoGiven)
    else if t == "beacon" then SpendOutcome(b, buyer.eosId, IntPrice(item), BoughtBeacon)
    else if t == "experience" then ExperienceOutcome(b, buyer.eosId, item, buyer.ridingDino)
    else if t == "unlockengram" || t == "command" then SpendOutcome(b, buyer.eosId, IntPrice(item), BoughtItem)
    else Outcome(false, None, b)
  }

  // ---------------------------------------------------------------- Buy

  /** Buy's result, the message sent, and the total of the log line, written only on success. */
  datatype Receipt = Receipt(success: bool, message: Option<string>, loggedTotal: Option<int>)

  datatype PurchaseResult = PurchaseResult(receipt: Receipt, balances: Balances)

  /** Whether the player is in any of the groups (the `Permissions` list split at commas). */
  predicate InAnyGroup(groups: seq<string>, inGroup: string -> bool)
  {
    exists k :: 0 <= k < |groups| && inGroup(groups[k])
  }

  /** The item has no permission list, or the player is in one of its groups. */
  predicate Permitted(item: ShopItem, inGroup: string -> bool)
  {
    item.permissions == "" || InAnyGroup(Split(item.permissions, ','), inGroup)
  }

  predicate LevelAllowed(item: ShopItem, level: int)
  {
    item.minLevel.GetOr(DefaultMinLevel) <= level <= item.maxLevel.GetOr(DefaultMaxLevel)
  }

  /** The total Buy logs: the wrapped total for an "item", the price otherwise. */
  function LoggedTotal(item: ShopItem, amount: int): int
  {
    if item.itemType == "item" then TotalPrice(item.price, amount) else IntPrice(item)
  }

  /**
   * Buy(itemId, amount) for `buyer` against the balances `b`. `inGroup` answers
   * Permissions::IsPlayerInGroup for the buyer, `dinoGiven` what GiveDino returns.
   */
  function Purchase(b: Balances, buyer: Buyer, catalog: Catalog, itemId: string, amount: int,
                    inGroup: string -> bool, dinoGiven: bool): PurchaseResult
  {
    var a := if amount <= 0 then 1 else amount;
    if buyer.dead || buyer.eosId !in b then PurchaseResult(Receipt(false, None, None), b)
    else match FindItem(catalog, itemId)
      case None => PurchaseResult(Receipt(false, Some(WrongId), None), b)
      case Some(k) =>
        var item := catalog[k].item;
        if !Permitted(item, inGroup) then PurchaseResult(Receipt(false, Some(NoPermissionsStore), None), b)
        else if !LevelAllowed(item, buyer.level) then PurchaseResult(Receipt(false, Some(BadLevel), None), b)
        else
          var o := TypeOutcome(b, buyer, item, a, dinoGiven);
          PurchaseResult(Receipt(o.success, o.message, if o.success then Some(LoggedTotal(item, a)) else None), o.balances)
  }

  method SpendPrice(points: PointsStore, eosId: string, price: int, okMessage: string)
    returns (success: bool, message: Option<string>)
    modifies points
    ensures Outcome(success, message, points.balances) == SpendOutcome(old(points.balances), eosId, price, okMessage)
  {
    var available := points.GetPoints(eosId);
    success := false;
    if available >= price {
      success := points.SpendPoints(price, eosId);
    }
    message := if success then Some(okMessage) else Some(NoPoints);
  }

  method BuyItem(points: PointsStore, item: ShopItem, eosId: string, amount: int)
    returns (success: bool, message: Option<string>)
    modifies points
    ensures Outcome(success, message, points.balances) == ItemOutcome(old(points.balances), eosId, item, amount)
  {
    var a := amount;
    if a <= 0 {
      a := 1;
    }
    var finalPrice := TotalPrice(item.price, a);
    if finalPrice <= 0 {
      return false, None;
    }
    success, message := SpendPrice(points, eosId, finalPrice, BoughtItem);
  }

  method UnlockEngram(points: PointsStore, item: ShopItem, eosId: string)
    returns (success: bool, message: Option<string>)
    modifies points
    ensures Outcome(success, message, points.balances) == SpendOutcome(old(points.balances), eosId, IntPrice(item), BoughtItem)
  {
    success, message := SpendPrice(points, eosId, IntPrice(item), BoughtItem);
  }

  method BuyCommand(points: PointsStore, item: ShopItem, eosId: string)
    returns (success: bool, message: Option<string>)
    modifies points
    ensures Outcome(success, message, points.balances) == SpendOutcome(old(points.balances), eosId, IntPrice(item), BoughtItem)
  {
    success, message := SpendPrice(points, eosId, IntPrice(item), BoughtItem);
  }

  method BuyBeacon(points: PointsStore, item: ShopItem, eosId: string)
    returns (success: bool, message: Option<string>)
    modifies points
    ensures Outcome(success, message, points.balances) == SpendOutcome(old(points.balances), eosId, IntPrice(item), BoughtBeacon)
  {
    success, message := SpendPrice(points, eosId, IntPrice(item), BoughtBeacon);
  }

  method BuyDino(points: PointsStore, item: ShopItem, eosId: string, dinoGiven: bool)
    returns (success: bool, message: Option<string>)
    modifies points
    ensures Outcome(success, message, points.balances) == DinoOutcome(old(points.balances), eosId, item, dinoGiven)
  {
    var price := IntPrice(item);
    var available := points.GetPoints(eosId);
    var paid := false;
    if available >= price {
      paid := points.SpendPoints(price, eosId);
    }
    if !paid {
      return false, Some(NoPoints);
    }
    success := dinoGiven;
    if success {
      message := Some(BoughtDino);
    } else {
      message := Some(RefundError);
      var _ := points.AddPoints(price, eosId);
    }
  }

  method BuyExperience(points: PointsStore, item: ShopItem, eosId: string, riding: bool)
    returns (success: bool, message: Option<string>)
    modifies points
    ensures Outcome(success, message, points.balances) == ExperienceOutcome(old(points.balances), eosId, item, riding)
  {
    if !item.giveToDino && riding {
      return false, Some(RidingDino);
    }
    success, message := SpendPrice(points, eosId, IntPrice(item), BoughtExp);
  }

  /** The permission loop: stop at the first group the player is in. */
  method HasPermission(groups: seq<string>, inGroup: string -> bool) returns (has: bool)
    ensures has == InAnyGroup(groups, inGroup)
  {
    has := false;
    var i := 0;
    while i < |groups|
      invariant 0 <= i <= |groups|
      invariant !has && forall k :: 0 <= k < i ==> !inGroup(groups[k])
    {
      if inGroup(groups[i]) {
        has := true;
        break;
      }
      i := i + 1;
    }
  }

  method Buy(points: PointsStore, buyer: Buyer, catalog: Catalog, itemId: string, amount: int,
             inGroup: string -> bool, dinoGiven: bool)
    returns (success: bool, message: Option<string>, loggedTotal: Option<int>)
    modifies points
    ensures PurchaseResult(Receipt(success, message, loggedTotal), points.balances)
      == Purchase(old(points.balances), buyer, catalog, itemId, amount, inGroup, dinoGiven)
  {
    if buyer.dead {
      return false, None, None;
    }
    var a := amount;
    if a <= 0 {
      a := 1;
    }
    if buyer.eosId !in points.balances {
      return false, None, None;
    }
    var found := FindItem(catalog, itemId);
    if found.None? {
      return false, Some(WrongId), None;
    }
    var item := catalog[found.value].item;
    if item.permissions != "" {
      var has := HasPermission(Split(item.permissions, ','), inGroup);
      if !has {
        return false, Some(NoPermissionsStore), None;
      }
    }
    var minLevel := item.minLevel.GetOr(DefaultMinLevel);
    var maxLevel := item.maxLevel.GetOr(DefaultMaxLevel);
    if buyer.level < minLevel || buyer.level > maxLevel {
      return false, Some(BadLevel), None;
    }
    var finalPrice := IntPrice(item);
    success, message := BuyByType(points, buyer, item, a, dinoGiven);
    if item.itemType == "item" && success {
      finalPrice := TotalPrice(item.price, a);
    }
    loggedTotal := if success then Some(finalPrice) else None;
  }

  /** Buy's dispatch on the item's "Type". */
  method BuyByType(points: PointsStore, buyer: Buyer, item: ShopItem, a: int, dinoGiven: bool)
    returns (success: bool, message: Option<string>)
    modifies points
    ensures Outcome(success, message, points.balances) == TypeOutcome(old(points.balances), buyer, item, a, dinoGiven)
  {
    var t := item.itemType;
    success, message := false, None;
    if t == "item" {
      success, message := BuyItem(points, item, buyer.eosId, a);
    } else if t == "dino" {
      success, message := BuyDino(points, item, buyer.eosId, dinoGiven);
    } else if t == "beacon" {
      success, message := BuyBeacon(points, item, buyer.eosId);
    } else if t == "experience" {
      success, message := BuyExperience(points, item, buyer.eosId, buyer.ridingDino);
    } else if t == "unlockengram" {
      success, message := UnlockEngram(points, item, buyer.eosId);
    } else if t == "command" {
      success, message := BuyCommand(points, item, buyer.eosId);
    }
  }

  // ---------------------------------------------------------------- what Buy guarantees

  /** A dead player buys nothing, hears nothing, and keeps every point. */
  lemma DeadBuysNothing(b: Balances, buyer: Buyer, catalog: Catalog, itemId: string, amount: int,
                        inGroup: string -> bool, dinoGiven: bool)
    requires buyer.dead
    ensures Purchase(b, buyer, catalog, itemId, amount, inGroup, dinoGiven) == PurchaseResult(Receipt(false, None, None), b)
  {
  }

  /** An amount that is not positive buys one. */
  lemma AmountClamped(b: Balances, buyer: Buyer, catalog: Catalog, itemId: string, amount: int,
                      inGroup: string -> bool, dinoGiven: bool)
    requires amount <= 0
    ensures Purchase(b, buyer, catalog, itemId, amount, inGroup, dinoGiven)
      == Purchase(b, buyer, catalog, itemId, 1, inGroup, dinoGiven)
  {
  }

  /** A purchase succeeds only past every guard of Buy. */
  lemma SuccessPassedGuards(b: Balances, buyer: Buyer, catalog: Catalog, itemId: string, amount: int,
                            inGroup: string -> bool, dinoGiven: bool)
    requires Purchase(b, buyer, catalog, itemId, amount, inGroup, dinoGiven).receipt.success
    ensures !buyer.dead && buyer.eosId in b
    ensures FindItem(catalog, itemId).Some?
    ensures var item := catalog[FindItem(catalog, itemId).value].item;
      Permitted(item, inGroup) && LevelAllowed(item, buyer.level)
  {
  }

  /** A player in none of the listed groups is refused with NoPermissionsStore, whatever else holds. */
  lemma PermissionGate(b: Balances, buyer: Buyer, catalog: Catalog, itemId: string, amount: int,
                       inGroup: string -> bool, dinoGiven: bool)
    requires !buyer.dead && buyer.eosId in b && FindItem(catalog, itemId).Some?
    requires var item := catalog[FindItem(catalog, itemId).value].item;
      var groups := Split(item.permissions, ',');
      item.permissions != "" && forall k :: 0 <= k < |groups| ==> !inGroup(groups[k])
    ensures Purchase(b, buyer, catalog, itemId, amount, inGroup, dinoGiven)
      == PurchaseResult(Receipt(false, Some(NoPermissionsStore), None), b)
  {
  }

  /**
   * Every purchase function either succeeds having spent exactly the total Buy
   * logs, or leaves the balances as they were (a refused dino is refunded).
   */
  lemma TypeOutcomeCharges(b: Balances, buyer: Buyer, item: ShopItem, a: int, dinoGiven: bool)
    requires a >= 1
    ensures var o := TypeOutcome(b, buyer, item, a, dinoGiven);
      (o.success ==> CanSpend(b, buyer.eosId, LoggedTotal(item, a))
                     && o.balances == Debit(b, buyer.eosId, LoggedTotal(item, a)))
      && (!o.success ==> o.balances == b)
  {
    var t := item.itemType;
    if t == "item" {
      assert TypeOutcome(b, buyer, item, a, dinoGiven) == ItemOutcome(b, buyer.eosId, item, a);
    } else if t == "dino" {
      assert TypeOutcome(b, buyer, item, a, dinoGiven) == DinoOutcome(b, buyer.eosId, item, dinoGiven);
      var price := IntPrice(item);
      if PointsOf(b, buyer.eosId) >= price && CanSpend(b, buyer.eosId, price) {
        RefundRestores(b, buyer.eosId, price);
      }
    } else if t == "experience" {
      assert TypeOutcome(b, buyer, item, a, dinoGiven) == ExperienceOutcome(b, buyer.eosId, item, buyer.ridingDino);
    }
  }

  /** What Buy does to the balances, in terms of its receipt. */
  lemma PurchaseCharges(b: Balances, buyer: Buyer, catalog: Catalog, itemId: string, amount: int,
                        inGroup: string -> bool, dinoGiven: bool)
    ensures var r := Purchase(b, buyer, catalog, itemId, amount, inGroup, dinoGiven);
      (r.receipt.success ==> r.receipt.loggedTotal.Some?
                             && CanSpend(b, buyer.eosId, r.receipt.loggedTotal.value)
                             && r.balances == Debit(b, buyer.eosId, r.receipt.loggedTotal.value))
      && (!r.receipt.success ==> r.balances == b && r.receipt.loggedTotal.None?)
  {
    var a := if amount <= 0 then 1 else amount;
    if !buyer.dead && buyer.eosId in b && FindItem(catalog, itemId).Some? {
      TypeOutcomeCharges(b, buyer, catalog[FindItem(catalog, itemId).value].item, a, dinoGiven);
    }
  }

  /** Only the buyer's balance can change, and no account is created or removed. */
  lemma OthersUntouched(b: Balances, buyer: Buyer, catalog: Catalog, itemId: string, amount: int,
                        inGroup: string -> bool, dinoGiven: bool)
    ensures var r := Purchase(b, buyer, catalog, itemId, amount, inGroup, dinoGiven);
      r.balances.Keys == b.Keys && forall e :: e in b && e != buyer.eosId ==> r.balances[e] == b[e]
  {
    PurchaseCharges(b, buyer, catalog, itemId, amount, inGroup, dinoGiven);
  }

  /** A purchase that fails costs nothing; a dino that could not be given is refunded. */
  lemma FailureCostsNothing(b: Balances, buyer: Buyer, catalog: Catalog, itemId: string, amount: int,
                            inGroup: string -> bool, dinoGiven: bool)
    ensures var r := Purchase(b, buyer, catalog, itemId, amount, inGroup, dinoGiven);
      !r.receipt.success ==> r.balances == b && r.receipt.loggedTotal.None?
  {
    PurchaseCharges(b, buyer, catalog, itemId, amount, inGroup, dinoGiven);
  }

  /**
   * A purchase that succeeds takes from the buyer exactly the total it logs,
   * and that total was neither negative nor above the balance.
   */
  lemma SuccessChargesLoggedTotal(b: Balances, buyer: Buyer, catalog: Catalog, itemId: string, amount: int,
                                  inGroup: string -> bool, dinoGiven: bool)
    ensures var r := Purchase(b, buyer, catalog, itemId, amount, inGroup, dinoGiven);
      r.receipt.success ==>
        buyer.eosId in b && r.receipt.loggedTotal.Some?
        && 0 <= r.receipt.loggedTotal.value <= b[buyer.eosId]
        && r.balances[buyer.eosId] == b[buyer.eosId] - r.receipt.loggedTotal.value
  {
    PurchaseCharges(b, buyer, catalog, itemId, amount, inGroup, dinoGiven);
  }

  /**
   * An example on one input. The item total wraps around 2^32: 42949673 items at 100 points each are
   * sold for 4 points to a player holding 4.
   */
  lemma WrappedItemTotal(eosId: string, key: string, item: ShopItem)
    requires item.itemType == "item" && item.price == 100 && item.permissions == ""
    requires item.minLevel == None && item.maxLevel == None
    ensures var buyer := Buyer(eosId, false, 50, false);
      Purchase(map[eosId := 4], buyer, [CatalogEntry(key, item)], key, 42949673, g => false, false)
        == PurchaseResult(Receipt(true, Some(BoughtItem), Some(4)), map[eosId := 0])
  {
    TotalWraps();
  }

  // ---------------------------------------------------------------- ChatBuy

  /** What ChatBuy does: BuyUsage without an id, nothing on an unreadable amount, otherwise Buy. */
  datatype ChatBuyReply = ChatBuyUsage | ChatBuyIgnored | ChatBought(receipt: Receipt)

  /** The amount ChatBuy passes: the third token read by stoi, 0 without one. */
  function ChatAmount(parsed: seq<string>): Option<int>
  {
    if |parsed| > 2 then Stoi(parsed[2]) else Some(0)
  }

  function ChatBuyResult(b: Balances, buyer: Buyer, catalog: Catalog, message: string,
                         inGroup: string -> bool, dinoGiven: bool): (ChatBuyReply, Balances)
  {
    var parsed := Tokenize(message);
    if |parsed| < 2 then (ChatBuyUsage, b)
    else match ChatAmount(parsed)
      case None => (ChatBuyIgnored, b)
      case Some(amount) =>
        var r := Purchase(b, buyer, catalog, parsed[1], amount, inGroup, dinoGiven);
        (ChatBought(r.receipt), r.balances)
  }

  method ChatBuy(points: PointsStore, buyer: Buyer, catalog: Catalog, message: string,
                 inGroup: string -> bool, dinoGiven: bool) returns (reply: ChatBuyReply)
    modifies points
    ensures (reply, points.balances) == ChatBuyResult(old(points.balances), buyer, catalog, message, inGroup, dinoGiven)
  {
    var parsed := Tokenize(message);
    if |parsed| < 2 {
      return ChatBuyUsage;
    }
    var amount := 0;
    if |parsed| > 2 {
      var v := Stoi(parsed[2]);
      if v.None? {
        return ChatBuyIgnored;
      }
      amount := v.value;
    }
    var success, msg, logged := Buy(points, buyer, catalog, parsed[1], amount, inGroup, dinoGiven);
    reply := ChatBought(Receipt(success, msg, logged));
  }

  /** "/buy id" without an amount buys one. */
  lemma ChatBuyDefaultsToOne(b: Balances, buyer: Buyer, catalog: Catalog, command: string, itemId: string,
                             inGroup: string -> bool, dinoGiven: bool)
    requires IsPiece(command, ' ') && IsPiece(itemId, ' ')
    ensures var r := Purchase(b, buyer, catalog, itemId, 1, inGroup, dinoGiven);
      ChatBuyResult(b, buyer, catalog, command + " " + itemId, inGroup, dinoGiven) == (ChatBought(r.receipt), r.balances)
  {
    var ts := [command, itemId];
    assert ts[..1] == [command];
    assert Join(" ", ts) == command + " " + itemId;
    TokenizeJoin(ts);
    AmountClamped(b, buyer, catalog, itemId, 0, inGroup, dinoGiven);
  }
}
