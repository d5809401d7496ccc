/**
 * Browsing the shop: ShowItems, one page of the catalogue, and FindItems,
 * the entries whose key or description contains a term regardless of case,
 * at most one page of them.
 */
module StoreBrowse {
  import opened Wrappers
  import opened Text
  import opened StoreCatalog

  /** One line of a listing: the entry's 1-based position, and what StoreListItem/StoreListDino show. */
  datatype Listing = Listing(number: nat, key: string, description: string, price: int, dinoLevel: Option<int>)

  function ListingAt(catalog: Catalog, i: nat): (l: Listing)
    requires i < |catalog|
    ensures l.number == i + 1 && l.key == catalog[i].key
    ensures l.dinoLevel.Some? <==> catalog[i].item.itemType == "dino"
  {
    var item := catalog[i].item;
    Listing(i + 1, catalog[i].key, DescriptionOf(item), IntPrice(item),
      if item.itemType == "dino" then Some(item.level) else None)
  }

  // ---------------------------------------------------------------- findCaseInsensitive

  /** findCaseInsensitive(data, toSearch, pos): both lowered, then searched from `pos`. */
  function FindCaseInsensitive(data: string, toSearch: string, pos: nat): bool
  {
    FindFrom(LowerString(data), LowerString(toSearch), pos).Some?
  }

  /** It holds exactly when the lowered term occurs in the lowered data at or after `pos`. */
  lemma FindCaseInsensitiveSpec(data: string, toSearch: string, pos: nat)
    ensures FindCaseInsensitive(data, toSearch, pos) <==>
      exists k :: pos <= k && OccursAt(LowerString(data), LowerString(toSearch), k)
  {
    var r := FindFrom(LowerString(data), LowerString(toSearch), pos);
    if r.Some? {
      assert OccursAt(LowerString(data), LowerString(toSearch), r.value);
    }
  }

  lemma LowerIdempotent(s: string)
    ensures LowerString(LowerString(s)) == LowerString(s)
  {
  }

  /** Lowering either argument first changes nothing. */
  lemma FindIgnoresCase(data: string, toSearch: string, pos: nat)
    ensures FindCaseInsensitive(LowerString(data), toSearch, pos) == FindCaseInsensitive(data, toSearch, pos)
    ensures FindCaseInsensitive(data, LowerString(toSearch), pos) == FindCaseInsensitive(data, toSearch, pos)
  {
    LowerIdempotent(data);
    LowerIdempotent(toSearch);
  }

  /** The empty term is found at every position up to the end of the data. */
  lemma EmptyTermFound(data: string, pos: nat)
    ensures FindCaseInsensitive(data, "", pos) <==> pos <= |data|
  {
    if pos <= |data| {
      assert OccursAt(LowerString(data), LowerString(""), pos);
    }
  }

  /** A verbatim occurrence is found. */
  lemma OccurrenceFound(data: string, toSearch: string, k: nat)
    requires OccursAt(data, toSearch, k)
    ensures FindCaseInsensitive(data, toSearch, 0)
  {
    var ld, lt := LowerString(data), LowerString(toSearch);
    assert ld[k..k + |lt|] == lt by {
      forall j | 0 <= j < |lt| ensures ld[k..k + |lt|][j] == lt[j] {
        assert data[k..k + |toSearch|][j] == toSearch[j];
      }
    }
    assert OccursAt(ld, lt, k);
  }

  // ---------------------------------------------------------------- ShowItems

  datatype PageView = PageView(page: nat, listings: seq<Listing>, pageCount: nat)

  /** What ShowItems does: whether it sent ShopUsage, and the page it shows, if any. */
  datatype ShopPage = ShopPage(usage: bool, shown: Option<PageView>)

  /** The page count of the ShopMessage line: the size divided by the page size, rounded up. */
  function PageCount(size: nat, itemsPerPage: nat): nat
    requires itemsPerPage > 0
  {
    if size % itemsPerPage == 0 then size / itemsPerPage else size / itemsPerPage + 1
  }

  /** The entries from `start` on, at most `itemsPerPage` of them. */
  function PageListings(catalog: Catalog, start: nat, itemsPerPage: nat): (ls: seq<Listing>)
    requires start <= |catalog|
  {
    var end := if start + itemsPerPage < |catalog| then start + itemsPerPage else |catalog|;
    seq(end - start, k requires 0 <= k < end - start => ListingAt(catalog, start + k))
  }

  /** Page `page` (0-based): nothing when it is negative or starts past the end. */
  function Window(catalog: Catalog, page: int, itemsPerPage: nat, usage: bool): ShopPage
    requires itemsPerPage > 0
  {
    if page < 0 || page * itemsPerPage >= |catalog| then ShopPage(usage, None)
    else ShopPage(usage, Some(PageView(page, PageListings(catalog, page * itemsPerPage, itemsPerPage),
      PageCount(|catalog|, itemsPerPage))))
  }

  /** ShowItems(message): the page given by the second token, counting from 1; the first page and ShopUsage without one. */
  function ShowItemsResult(catalog: Catalog, message: string, itemsPerPage: nat): ShopPage
    requires itemsPerPage > 0
  {
    var parsed := Tokenize(message);
    if |parsed| > 1 then
      match Stoi(parsed[1])
      case None => ShopPage(false, None)
      case Some(v) => Window(catalog, v - 1, itemsPerPage, false)
    else Window(catalog, 0, itemsPerPage, true)
  }

  method ShowItems(catalog: Catalog, message: string, itemsPerPage: nat) returns (result: ShopPage)
    requires itemsPerPage > 0
    ensures result == ShowItemsResult(catalog, message, itemsPerPage)
  {
    var parsed := Tokenize(message);
    var page := 0;
    var usage := false;
    if |parsed| > 1 {
      var v := Stoi(parsed[1]);
      if v.None? {
        return ShopPage(false, None);
      }
      page := v.value - 1;
    } else {
      usage := true;
    }
    if page < 0 {
      return ShopPage(usage, None);
    }
    var startIndex := page * itemsPerPage;
    if startIndex >= |catalog| {
      return ShopPage(usage, None);
    }
    var listings: seq<Listing> := [];
    var i := startIndex;
    while i < |catalog|
      invariant startIndex <= i <= |catalog| && i <= startIndex + itemsPerPage
      invariant listings == seq(i - startIndex, k requires 0 <= k < i - startIndex => ListingAt(catalog, startIndex + k))
    {
      if i == startIndex + itemsPerPage {
        break;
      }
      listings := listings + [ListingAt(catalog, i)];
      i := i + 1;
    }
    assert listings == PageListings(catalog, startIndex, itemsPerPage);
    result := ShopPage(usage, Some(PageView(page, listings, PageCount(|catalog|, itemsPerPage))));
    assert result == Window(catalog, page, itemsPerPage, usage);
  }

  /** The page count is the fewest pages that hold the whole catalogue. */
  lemma PageCountCeil(size: nat, itemsPerPage: nat)
    requires itemsPerPage > 0
    ensures PageCount(size, itemsPerPage) * itemsPerPage >= size
    ensures size > 0 ==> (PageCount(size, itemsPerPage) - 1) * itemsPerPage < size
  {
    var q, r := size / itemsPerPage, size % itemsPerPage;
    assert size == q * itemsPerPage + r && 0 <= r < itemsPerPage;
    if r != 0 {
      assert (q + 1) * itemsPerPage == q * itemsPerPage + itemsPerPage;
    } else if size > 0 {
      assert q >= 1;
      assert (q - 1) * itemsPerPage == q * itemsPerPage - itemsPerPage;
    }
  }

  /** A page that starts before the end of the catalogue is among those announced. */
  lemma PageBeforeEnd(size: nat, itemsPerPage: nat, p: nat)
    requires itemsPerPage > 0 && p * itemsPerPage < size
    ensures p < PageCount(size, itemsPerPage)
  {
    PageCountCeil(size, itemsPerPage);
    var c := PageCount(size, itemsPerPage);
    assert (c - p) * itemsPerPage == c * itemsPerPage - p * itemsPerPage;
    assert (c - p) * itemsPerPage > 0;
  }

  /** A page at or past the announced count starts at or past the end. */
  lemma PageAfterEnd(size: nat, itemsPerPage: nat, p: int)
    requires itemsPerPage > 0 && p >= PageCount(size, itemsPerPage)
    ensures p * itemsPerPage >= size
  {
    PageCountCeil(size, itemsPerPage);
    var c := PageCount(size, itemsPerPage);
    assert (p - c) * itemsPerPage >= 0;
    assert p * itemsPerPage == c * itemsPerPage + (p - c) * itemsPerPage;
  }

  /**
   * Every entry is listed on page i / itemsPerPage, at offset i % itemsPerPage,
   * and that page is among those the page count announces.
   */
  lemma EveryItemOnItsPage(catalog: Catalog, itemsPerPage: nat, i: nat)
    requires itemsPerPage > 0 && i < |catalog|
    ensures var p := i / itemsPerPage;
      var w := Window(catalog, p, itemsPerPage, false);
      p < PageCount(|catalog|, itemsPerPage)
      && w.shown.Some? && i % itemsPerPage < |w.shown.value.listings|
      && w.shown.value.listings[i % itemsPerPage] == ListingAt(catalog, i)
  {
    var p, o := i / itemsPerPage, i % itemsPerPage;
    assert i == p * itemsPerPage + o && 0 <= o < itemsPerPage;
    PageBeforeEnd(|catalog|, itemsPerPage, p);
  }

  /** A page is never longer than the page size, and is numbered consecutively from its start. */
  lemma PageBounded(catalog: Catalog, page: int, itemsPerPage: nat, usage: bool)
    requires itemsPerPage > 0
    ensures var r := Window(catalog, page, itemsPerPage, usage);
      r.usage == usage
      && (r.shown.Some? <==> 0 <= page && page * itemsPerPage < |catalog|)
      && (r.shown.Some? ==>
        var v := r.shown.value;
        v.page == page && 0 < |v.listings| <= itemsPerPage
        && forall k :: 0 <= k < |v.listings| ==> v.listings[k].number == page * itemsPerPage + k + 1)
  {
    if 0 <= page && page * itemsPerPage < |catalog| {
      var start := page * itemsPerPage;
      var ls := PageListings(catalog, start, itemsPerPage);
      forall k | 0 <= k < |ls| ensures ls[k].number == start + k + 1 {
        assert ls[k] == ListingAt(catalog, start + k);
      }
    }
  }

  /** Without a page number, ShopUsage is sent and the first page is shown. */
  lemma NoPageNumber(catalog: Catalog, message: string, itemsPerPage: nat)
    requires itemsPerPage > 0 && |Tokenize(message)| <= 1 && |catalog| > 0
    ensures var r := ShowItemsResult(catalog, message, itemsPerPage);
      r.usage && r.shown.Some? && r.shown.value.page == 0
      && r.shown.value.listings[0] == ListingAt(catalog, 0)
  {
  }

  /** A command word followed by a number tokenizes into those two. */
  lemma PageCommandTokens(command: string, n: int)
    requires IsPiece(command, ' ')
    ensures Tokenize(command + " " + IntToString(n)) == [command, IntToString(n)]
  {
    var ts := [command, IntToString(n)];
    assert ts[..1] == [command];
    assert Join(" ", ts) == command + " " + IntToString(n);
    TokenizeJoin(ts);
  }

  /** "/shop n" shows page n, counting from 1; nothing for n past the announced page count. */
  lemma PageNumberCommand(catalog: Catalog, command: string, n: int, itemsPerPage: nat)
    requires itemsPerPage > 0 && IsPiece(command, ' ') && IsInt32(n)
    ensures ShowItemsResult(catalog, command + " " + IntToString(n), itemsPerPage)
      == Window(catalog, n - 1, itemsPerPage, false)
    ensures n > PageCount(|catalog|, itemsPerPage) ==>
      ShowItemsResult(catalog, command + " " + IntToString(n), itemsPerPage) == ShopPage(false, None)
  {
    PageCommandTokens(command, n);
    StoiRoundTrip(n);
    if n > PageCount(|catalog|, itemsPerPage) {
      PageAfterEnd(|catalog|, itemsPerPage, n - 1);
    }
  }

  // ---------------------------------------------------------------- FindItems

  /** An entry matches when its key or its description contains the term. */
  predicate EntryMatches(e: CatalogEntry, term: string)
  {
    FindCaseInsensitive(e.key, term, 0) || FindCaseInsensitive(DescriptionOf(e.item), term, 0)
  }

  /** The positions of the matching entries among the first `n`, in order. */
  function MatchesBelow(catalog: Catalog, term: string, n: nat): (m: seq<nat>)
    requires n <= |catalog|
    ensures forall k :: 0 <= k < |m| ==> m[k] < n
    decreases n
  {
    if n == 0 then []
    else if EntryMatches(catalog[n - 1], term) then MatchesBelow(catalog, term, n - 1) + [n - 1]
    else MatchesBelow(catalog, term, n - 1)
  }

  function Matches(catalog: Catalog, term: string): seq<nat>
  {
    MatchesBelow(catalog, term, |catalog|)
  }

  function ListingsOf(catalog: Catalog, idx: seq<nat>): seq<Listing>
    requires forall k :: 0 <= k < |idx| ==> idx[k] < |catalog|
  {
    seq(|idx|, k requires 0 <= k < |idx| => ListingAt(catalog, idx[k]))
  }

  /** What FindItems sends: usage, ShopFindNotFound, or the listings and whether ShopFindTooManyResults follows. */
  datatype FindReply = FindUsage | NotFound | Found(listings: seq<Listing>, tooMany: bool)

  /**
   * FindItems(message): the first page of matching entries, with the
   * too-many notice when there are more; not-found when there is none.
   */
  function FindItemsResult(catalog: Catalog, message: string, itemsPerPage: int): FindReply
  {
    var parsed := Tokenize(message);
    if |parsed| < 2 then FindUsage
    else
      var m := Matches(catalog, parsed[1]);
      var cap := if itemsPerPage < 0 then 0 else itemsPerPage;
      if |m| > cap then Found(ListingsOf(catalog, m[..cap]), true)
      else if |m| == 0 then NotFound
      else Found(ListingsOf(catalog, m), false)
  }

  method FindItems(catalog: Catalog, message: string, itemsPerPage: int) returns (reply: FindReply)
    ensures reply == FindItemsResult(catalog, message, itemsPerPage)
  {
    var parsed := Tokenize(message);
    if |parsed| < 2 {
      return FindUsage;
    }
    var listings, tooMany := CollectMatches(catalog, parsed[1], itemsPerPage);
    if tooMany {
      reply := Found(listings, true);
    } else if |listings| == 0 {
      reply := NotFound;
    } else {
      reply := Found(listings, false);
    }
  }

  /** The loop of FindItems: list matches until one more than a page's worth is met. */
  method CollectMatches(catalog: Catalog, searchTerm: string, itemsPerPage: int) returns (listings: seq<Listing>, tooMany: bool)
    ensures var m := Matches(catalog, searchTerm);
      var cap := if itemsPerPage < 0 then 0 else itemsPerPage;
      (tooMany <==> |m| > cap)
      && listings == ListingsOf(catalog, if tooMany then m[..cap] else m)
  {
    listings := [];
    var count := 0;
    tooMany := false;
    ghost var cap := if itemsPerPage < 0 then 0 else itemsPerPage;
    var i := 0;
    while i < |catalog|
      invariant 0 <= i <= |catalog|
      invariant count == |MatchesBelow(catalog, searchTerm, i)| <= cap
      invariant listings == ListingsOf(catalog, MatchesBelow(catalog, searchTerm, i))
      invariant !tooMany
    {
      var found := EntryFound(catalog[i], searchTerm);
      MatchStep(catalog, searchTerm, i);
      if found {
        if count >= itemsPerPage {
          tooMany := true;
          break;
        }
        ListingsSnoc(catalog, MatchesBelow(catalog, searchTerm, i), i);
        listings := listings + [ListingAt(catalog, i)];
        count := count + 1;
      }
      i := i + 1;
    }
    if tooMany {
      TooManyAt(catalog, searchTerm, i, cap);
    }
  }

  /** The key is searched first, the description only when the key does not match. */
  method EntryFound(e: CatalogEntry, searchTerm: string) returns (found: bool)
    ensures found == EntryMatches(e, searchTerm)
  {
    found := false;
    if FindCaseInsensitive(e.key, searchTerm, 0) {
      found := true;
    }
    if !found && FindCaseInsensitive(DescriptionOf(e.item), searchTerm, 0) {
      found := true;
    }
  }

  lemma MatchStep(catalog: Catalog, term: string, i: nat)
    requires i < |catalog|
    ensures MatchesBelow(catalog, term, i + 1)
      == if EntryMatches(catalog[i], term) then MatchesBelow(catalog, term, i) + [i] else MatchesBelow(catalog, term, i)
  {
  }

  lemma ListingsSnoc(catalog: Catalog, idx: seq<nat>, i: nat)
    requires i < |catalog| && forall k :: 0 <= k < |idx| ==> idx[k] < |catalog|
    ensures ListingsOf(catalog, idx + [i]) == ListingsOf(catalog, idx) + [ListingAt(catalog, i)]
  {
  }

  /** Stopping at a match once `cap` are listed: more than `cap` match, and the listed ones are the first `cap`. */
  lemma TooManyAt(catalog: Catalog, term: string, i: nat, cap: nat)
    requires i < |catalog| && EntryMatches(catalog[i], term) && |MatchesBelow(catalog, term, i)| == cap
    ensures var m := Matches(catalog, term);
      |m| > cap && m[..cap] == MatchesBelow(catalog, term, i)
  {
    MatchesGrow(catalog, term, i + 1, |catalog|);
    assert MatchesBelow(catalog, term, i + 1) == MatchesBelow(catalog, term, i) + [i];
    assert MatchesBelow(catalog, term, i + 1)[..cap] == MatchesBelow(catalog, term, i);
  }

  /** The matches among fewer entries are a prefix of the matches among more. */
  lemma {:induction false} MatchesGrow(catalog: Catalog, term: string, n: nat, n': nat)
    requires n <= n' <= |catalog|
    ensures var m := MatchesBelow(catalog, term, n');
      |MatchesBelow(catalog, term, n)| <= |m| && m[..|MatchesBelow(catalog, term, n)|] == MatchesBelow(catalog, term, n)
    decreases n' - n
  {
    if n < n' {
      MatchesGrow(catalog, term, n, n' - 1);
    }
  }

  /** Exactly the matching entries are among the matches, each once, in catalogue order. */
  lemma {:induction false} MatchesExact(catalog: Catalog, term: string, n: nat)
    requires n <= |catalog|
    ensures var m := MatchesBelow(catalog, term, n);
      (forall i :: 0 <= i < n ==> (i in m <==> EntryMatches(catalog[i], term)))
      && forall a, b :: 0 <= a < b < |m| ==> m[a] < m[b]
    decreases n
  {
    MatchesMembership(catalog, term, n);
    MatchesIncreasing(catalog, term, n);
  }

  /** An entry below `n` is among the matches iff it matches. */
  lemma {:induction false} MatchesMembership(catalog: Catalog, term: string, n: nat)
    requires n <= |catalog|
    ensures forall i :: 0 <= i < n ==> (i in MatchesBelow(catalog, term, n) <==> EntryMatches(catalog[i], term))
    decreases n
  {
    if n > 0 {
      MatchesMembership(catalog, term, n - 1);
      var prev := MatchesBelow(catalog, term, n - 1);
      forall i | 0 <= i < n
        ensures i in MatchesBelow(catalog, term, n) <==> EntryMatches(catalog[i], term)
      {
        if i < n - 1 {
          assert i != n - 1;
          assert i in prev ==> EntryMatches(catalog[i], term);
        } else {
          assert n - 1 !in prev;
        }
      }
    }
  }

  predicate Increasing(m: seq<nat>)
  {
    forall a, b :: 0 <= a < b < |m| ==> m[a] < m[b]
  }

  /** The matches are in strictly increasing catalogue order. */
  lemma {:induction false} MatchesIncreasing(catalog: Catalog, term: string, n: nat)
    requires n <= |catalog|
    ensures Increasing(MatchesBelow(catalog, term, n))
    decreases n
  {
    if n > 0 {
      MatchesIncreasing(catalog, term, n - 1);
      var prev := MatchesBelow(catalog, term, n - 1);
      var m := MatchesBelow(catalog, term, n);
      if EntryMatches(catalog[n - 1], term) {
        assert m == prev + [n - 1];
        forall a, b | 0 <= a < b < |m| ensures m[a] < m[b] {
          if b == |prev| {
            assert m[a] == prev[a] && m[b] == n - 1;
          } else {
            assert m[a] == prev[a] && m[b] == prev[b];
          }
        }
      } else {
        assert m == prev;
      }
    }
  }

  /** Everything FindItems lists matches the term, and no more than a page is listed. */
  lemma FoundMatch(catalog: Catalog, message: string, itemsPerPage: int)
    requires |Tokenize(message)| >= 2
    ensures var r := FindItemsResult(catalog, message, itemsPerPage);
      r.Found? ==>
        |r.listings| <= (if itemsPerPage < 0 then 0 else itemsPerPage)
        && forall k :: 0 <= k < |r.listings| ==>
          var i := r.listings[k].number - 1;
          0 <= i < |catalog| && EntryMatches(catalog[i], Tokenize(message)[1])
  {
    var term := Tokenize(message)[1];
    var m := Matches(catalog, term);
    MatchesExact(catalog, term, |catalog|);
    forall k | 0 <= k < |m| ensures EntryMatches(catalog[m[k]], term) {
      assert m[k] in m;
    }
  }

  /** When they fit on a page, all matching entries are listed, with no notice. */
  lemma FewMatchesAllShown(catalog: Catalog, message: string, itemsPerPage: int, i: nat)
    requires |Tokenize(message)| >= 2 && i < |catalog| && EntryMatches(catalog[i], Tokenize(message)[1])
    requires |Matches(catalog, Tokenize(message)[1])| <= itemsPerPage
    ensures var r := FindItemsResult(catalog, message, itemsPerPage);
      r.Found? && !r.tooMany && exists k :: 0 <= k < |r.listings| && r.listings[k] == ListingAt(catalog, i)
  {
    var term := Tokenize(message)[1];
    var m := Matches(catalog, term);
    MatchesExact(catalog, term, |catalog|);
    assert i in m;
    var k :| 0 <= k < |m| && m[k] == i;
    assert ListingsOf(catalog, m)[k] == ListingAt(catalog, i);
  }

  /** ShopFindNotFound is sent exactly when no entry matches. */
  lemma NotFoundIffNoMatch(catalog: Catalog, message: string, itemsPerPage: int)
    requires |Tokenize(message)| >= 2
    ensures FindItemsResult(catalog, message, itemsPerPage) == NotFound <==>
      forall i :: 0 <= i < |catalog| ==> !EntryMatches(catalog[i], Tokenize(message)[1])
  {
    var term := Tokenize(message)[1];
    var m := Matches(catalog, term);
    MatchesExact(catalog, term, |catalog|);
    if |m| > 0 {
      assert m[0] in m;
      assert EntryMatches(catalog[m[0]], term);
    }
  }

  /** The notice follows exactly when more entries match than fit on a page. */
  lemma TooManyIffOverPage(catalog: Catalog, message: string, itemsPerPage: int)
    requires |Tokenize(message)| >= 2
    ensures var r := FindItemsResult(catalog, message, itemsPerPage);
      (r.Found? && r.tooMany) <==>
        |Matches(catalog, Tokenize(message)[1])| > (if itemsPerPage < 0 then 0 else itemsPerPage)
  {
  }
}
