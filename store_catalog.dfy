/**
 * The shop's catalogue as the configuration gives it: entries keyed by item
 * id, in the order the configuration object iterates them, and the 32-bit
 * arithmetic the purchase code does on prices.
 */
module StoreCatalog {
  import opened Wrappers
  import opened Text

  /** One "ShopItems" entry; absent optional fields take the defaults the code reads them with. */
  datatype ShopItem = ShopItem(
    itemType: string,             // "Type", default ""
    price: int,                   // "Price", as written in the configuration
    permissions: string,          // "Permissions", default ""
    minLevel: Option<int>,        // "MinLevel", default 1
    maxLevel: Option<int>,        // "MaxLevel", default 999
    description: Option<string>,  // "Description", default "No description"
    level: int,                   // "Level" of a dino
    giveToDino: bool)             // "GiveToDino" of an experience entry

  datatype CatalogEntry = CatalogEntry(key: string, item: ShopItem)

  type Catalog = seq<CatalogEntry>

  const DefaultMinLevel := 1
  const DefaultMaxLevel := 999
  const NoDescription := "No description"

  function DescriptionOf(item: ShopItem): string
  {
    item.description.GetOr(NoDescription)
  }

  /** `items_list.find(item_id)`: the entry with that key, if any. */
  function FindItem(catalog: Catalog, itemId: string): (r: Option<nat>)
    ensures r.Some? ==> r.value < |catalog| && catalog[r.value].key == itemId
    ensures r.Some? ==> forall k :: 0 <= k < r.value ==> catalog[k].key != itemId
    ensures r.None? ==> forall k :: 0 <= k < |catalog| ==> catalog[k].key != itemId
    decreases |catalog|
  {
    if |catalog| == 0 then None
    else if catalog[0].key == itemId then Some(0)
    else match FindItem(catalog[1..], itemId)
      case None => None
      case Some(k) => Some(k + 1)
  }

  // ---------------------------------------------------------------- 32-bit arithmetic

  const TwoTo32 := 0x1_0000_0000
  const TwoTo31 := 0x8000_0000

  predicate IsInt32(x: int)
  {
    -TwoTo31 <= x < TwoTo31
  }

  /** Conversion to `unsigned`: the value modulo 2^32. */
  function ToUnsigned(x: int): (u: int)
    ensures 0 <= u < TwoTo32 && (x - u) % TwoTo32 == 0
  {
    x % TwoTo32
  }

  /** Conversion of a 32-bit pattern to `int`, two's complement. */
  function ToInt32(u: int): (r: int)
    requires 0 <= u < TwoTo32
    ensures IsInt32(r) && ToUnsigned(r) == u
  {
    if u >= TwoTo31 then u - TwoTo32 else u
  }

  /** `const int price = item_entry["Price"]`. */
  function IntPrice(item: ShopItem): (p: int)
    ensures IsInt32(item.price) ==> p == item.price
  {
    ToInt32(ToUnsigned(item.price))
  }

  /** `const int final_price = price * amount` with `price` unsigned: wraps modulo 2^32. */
  function TotalPrice(price: int, amount: int): (r: int)
    ensures IsInt32(r) && ToUnsigned(r) == ToUnsigned(ToUnsigned(price) * ToUnsigned(amount))
  {
    ToInt32(ToUnsigned(ToUnsigned(price) * ToUnsigned(amount)))
  }

  /** `std::stoi`: a decimal integer that fits in an `int`; anything else throws. */
  function Stoi(s: string): (r: Option<int>)
    ensures r.Some? ==> IsInt32(r.value) && ParseInt(s) == r
    ensures ParseInt(s).Some? && IsInt32(ParseInt(s).value) ==> r == ParseInt(s)
  {
    match ParseInt(s)
    case Some(v) => if IsInt32(v) then Some(v) else None
    case None => None
  }

  lemma StoiRoundTrip(i: int)
    requires IsInt32(i)
    ensures Stoi(IntToString(i)) == Some(i)
  {
    ParseIntRoundTrip(i);
  }

  lemma SmallUnsigned(x: int)
    requires 0 <= x < TwoTo32
    ensures ToUnsigned(x) == x
  {
  }

  /** Without overflow the total is the product. */
  lemma ProductBounds(p: int, a: int)
    requires p >= 1 && a >= 1
    ensures p <= p * a && a <= p * a
  {
    assert p * a == p * (a - 1) + p;
    assert p * a == (p - 1) * a + a;
  }

  lemma TotalExact(price: int, amount: int)
    requires 0 <= price && 0 <= amount && price * amount < TwoTo31
    ensures TotalPrice(price, amount) == price * amount
  {
    if amount == 0 {
      assert ToUnsigned(price) * ToUnsigned(amount) == 0;
    } else if price == 0 {
      assert ToUnsigned(price) * ToUnsigned(amount) == 0;
    } else {
      ProductBounds(price, amount);
      SmallUnsigned(price);
      SmallUnsigned(amount);
      SmallUnsigned(price * amount);
    }
  }

  /**
   * An example on one input. With overflow it is not: 42949673 items at 100 points cost 4 points,
   * since 4294967300 is 4 modulo 2^32.
   */
  lemma TotalWraps()
    ensures TotalPrice(100, 42949673) == 4
  {
    SmallUnsigned(100);
    SmallUnsigned(42949673);
    assert 100 * 42949673 == 4294967300 == TwoTo32 + 4;
  }
}
