/** Emulated pagination of list responses: pages cut out after a marker, and the links from one to the next. */
module Pagination {
  import opened Lists
  import opened Text

  datatype Item = Item(id: string)

  // ---------- Limit and marker of a request ----------

  datatype LimitResult = BadRequest | NoPaging | Paging(limit: nat, marker: Option<string>)

  const PAGINATION_INFINITE := "infinite"

  /** The configured cap: -1 when infinite or no number; zero and negative numbers are warned about, and kept. */
  function MaxLimit(conf: string): int {
    if LowerCase(conf) == PAGINATION_INFINITE then -1
    else match ParseInt(conf) case Some(n) => n case None => -1
  }

  /** The request's own limit; nothing is a limit of 0. */
  function LimitParam(limit: Option<string>): Option<nat> {
    match limit
    case None => Some(0)
    case Some(s) =>
      match ParseInt(s)
      case Some(n) => if n >= 0 then Some(n as nat) else None
      case None => None
  }

  /** The text of a number, and what is read from texts that are none. */
  lemma CapOf(conf: string)
    ensures forall n :: conf == Decimal(n) ==> MaxLimit(conf) == n
    ensures LowerCase(conf) == "infinite" ==> MaxLimit(conf) == -1
    ensures ParseInt(conf).None? ==> MaxLimit(conf) == -1
  {
    forall n | conf == Decimal(n) ensures MaxLimit(conf) == n {
      DecimalRoundTrip(n);
      DecimalNotWord(n);
    }
  }

  lemma DecimalNotWord(n: int)
    ensures LowerCase(Decimal(n)) != "infinite"
  {
    var s := Decimal(n);
    DigitsParse(if n < 0 then -n else n);
    assert s[0] == '-' || '0' <= s[0] <= '9';
    assert "infinite"[0] == 'i';
    assert s != [] && LowerCase(s)[0] == Lower(s[0]) == s[0];
  }

  lemma LimitOf(limit: Option<string>)
    ensures limit.None? ==> LimitParam(limit) == Some(0)
    ensures forall n :: limit == Some(Decimal(n)) ==> LimitParam(limit) == if n >= 0 then Some(n as nat) else None
    ensures limit.Some? && ParseInt(limit.value).None? ==> LimitParam(limit) == None
  {
    forall n | limit == Some(Decimal(n)) ensures LimitParam(limit) == if n >= 0 then Some(n as nat) else None {
      DecimalRoundTrip(n);
    }
  }

  /** A request is refused exactly when its limit is no number from 0 up. Without a positive cap the request's own limit
      holds, 0 meaning no paging; with one there always is paging: the limit holds while it is from 1 to the cap, else
      the cap. */
  method GetLimitAndMarker(conf: string, limitParam: Option<string>, marker: Option<string>) returns (r: LimitResult)
    ensures r.BadRequest? <==> LimitParam(limitParam).None?
    ensures r.NoPaging? <==> LimitParam(limitParam) == Some(0) && MaxLimit(conf) <= 0
    ensures r.Paging? ==>
              var max, q := MaxLimit(conf), LimitParam(limitParam).value;
              && r.marker == marker
              && (max <= 0 ==> r.limit == q > 0)
              && (max > 0 ==> r.limit == if 1 <= q <= max then q else max)
    ensures forall max, q :: conf == Decimal(max) && limitParam == Some(Decimal(q)) ==>
              r == if q < 0 then BadRequest
                   else if max > 0 then Paging(if 1 <= q <= max then q else max, marker)
                   else if q > 0 then Paging(q, marker) else NoPaging
    ensures forall q :: LowerCase(conf) == "infinite" && limitParam == Some(Decimal(q)) ==>
              r == if q < 0 then BadRequest else if q > 0 then Paging(q, marker) else NoPaging
    ensures forall max :: conf == Decimal(max) && limitParam == None ==>
              r == if max > 0 then Paging(max, marker) else NoPaging
  {
    CapOf(conf);
    LimitOf(limitParam);
    hide Decimal, LimitParam, LowerCase, MaxLimit, ParseInt;
    var maxLimit := MaxLimit(conf);
    var requested := LimitParam(limitParam);
    if requested.None? { return BadRequest; }
    var limit: nat := requested.value;
    if maxLimit > 0 {
      var smaller := if maxLimit < limit then maxLimit else limit;
      limit := if smaller != 0 then smaller else maxLimit;
    }
    if limit == 0 { return NoPaging; }
    r := Paging(limit, marker);
  }

  // ---------- Pages ----------

  /** A Python index into a sequence of length `n`: negative ones count from the end. */
  function Clamp(i: int, n: nat): nat {
    var j := if i < 0 then i + n else i;
    if j < 0 then 0 else if j > n then n else j
  }

  function PySlice<T>(s: seq<T>, lo: int, hi: int): seq<T> {
    var a, b := Clamp(lo, |s|), Clamp(hi, |s|);
    if a < b then s[a..b] else []
  }

  lemma SliceShort<T>(s: seq<T>, lo: int, hi: int)
    requires -1 <= hi && lo <= hi
    ensures |PySlice(s, lo, hi)| <= hi - lo
  {
  }

  /** The position of the marker; of the last item when there is none with that id; -1 without a marker. */
  function MarkerIndex(items: seq<Item>, marker: Option<string>): (i: int)
    ensures -1 <= i < |items| || (items == [] && i == -1)
  {
    if marker.None? || marker.value == "" then -1
    else if items == [] then -1
    else if items[0].id == marker.value then 0
    else if |items| == 1 then 0
    else 1 + MarkerIndex(items[1..], marker)
  }

  /** The marker is the first item with its id; one that no item has stands for the last. */
  lemma {:induction false} MarkerIs(items: seq<Item>, marker: string, k: nat)
    requires marker != ""
    ensures k < |items| && items[k].id == marker && (forall j :: 0 <= j < k ==> items[j].id != marker) ==>
              MarkerIndex(items, Some(marker)) == k
    ensures (forall item :: item in items ==> item.id != marker) ==> MarkerIndex(items, Some(marker)) == |items| - 1
    decreases |items|
  {
    if items != [] && items[0].id != marker {
      var rest := items[1..];
      assert forall j :: 0 <= j < |rest| ==> rest[j] == items[j + 1];
      if |items| > 1 { MarkerIs(rest, marker, if k > 0 then k - 1 else 0); }
      assert items[0] in items;
    } else if items != [] {
      assert items[0] in items;
    }
  }

  function Page(items: seq<Item>, limit: nat, marker: Option<string>, reverse: bool): seq<Item> {
    var i := MarkerIndex(items, marker);
    if limit == 0 then items
    else if reverse then PySlice(items, i - limit, i)
    else PySlice(items, i + 1, i + limit + 1)
  }

  /** The page after the item with the marker's id, and the one before it. A backward page that would begin before the
      list begins is cut by Python's negative index: it is empty, unless the whole list is shorter than a page. */
  lemma PageAround(items: seq<Item>, limit: nat, marker: string, k: nat)
    requires limit > 0 && marker != "" && k < |items| && items[k].id == marker
    requires forall j :: 0 <= j < k ==> items[j].id != marker
    ensures Page(items, limit, Some(marker), false) == items[k + 1..if k + 1 + limit < |items| then k + 1 + limit else |items|]
    ensures k >= limit ==> Page(items, limit, Some(marker), true) == items[k - limit..k]
    ensures k < limit <= |items| ==> Page(items, limit, Some(marker), true) == []
    ensures k < limit && |items| < limit ==>
              Page(items, limit, Some(marker), true) == items[if |items| + k < limit then 0 else |items| + k - limit..k]
  {
    MarkerIs(items, marker, k);
  }

  /** The loop that looks for the marker. */
  method FindMarker(items: seq<Item>, marker: string) returns (i: int)
    requires marker != ""
    ensures i == MarkerIndex(items, Some(marker))
  {
    i := -1;
    assert items[0..] == items;
    while i + 1 < |items|
      invariant -1 <= i < |items| || (items == [] && i == -1)
      invariant i + 1 < |items| ==> MarkerIndex(items, Some(marker)) == i + 1 + MarkerIndex(items[i + 1..], Some(marker))
      invariant i + 1 == |items| ==> MarkerIndex(items, Some(marker)) == i
      decreases |items| - i
    {
      ghost var rest := items[i + 1..];
      assert rest[0] == items[i + 1] && rest[1..] == items[i + 2..];
      i := i + 1;
      if items[i].id == marker { return; }
    }
  }

  method Paginate(items: seq<Item>, limit: nat, marker: Option<string>, pageReverse: bool) returns (page: seq<Item>)
    ensures page == Page(items, limit, marker, pageReverse)
    ensures limit > 0 ==> |page| <= limit
  {
    hide PySlice;
    if limit == 0 { return items; }
    var i := -1;
    if marker.Some? && marker.value != "" {
      i := FindMarker(items, marker.value);
    }
    assert i == MarkerIndex(items, marker);
    SliceShort(items, i - limit, i);
    SliceShort(items, i + 1, i + limit + 1);
    page := if pageReverse then PySlice(items, i - limit, i) else PySlice(items, i + 1, i + limit + 1);
  }

  // ---------- Links ----------

  /** Where a link leads: the same request with this marker and direction. */
  datatype Link = Link(rel: string, marker: Option<string>, reverse: bool)

  function NextLink(page: seq<Item>): Link {
    Link("next", if page == [] then None else Some(page[|page| - 1].id), false)
  }

  function PreviousLink(page: seq<Item>): Link {
    Link("previous", if page == [] then None else Some(page[0].id), true)
  }

  /** A short page has nothing after it in the direction of travel, and always something behind it. */
  method GetPaginationLinks(page: seq<Item>, limit: nat, pageReverse: bool) returns (links: seq<Link>)
    ensures NextLink(page) in links <==> limit > 0 && (|page| >= limit || pageReverse)
    ensures PreviousLink(page) in links <==> limit > 0 && (|page| >= limit || !pageReverse)
    ensures forall link :: link in links ==> link == NextLink(page) || link == PreviousLink(page)
  {
    links := [];
    assert NextLink(page).rel[0] == 'n' && PreviousLink(page).rel[0] == 'p';
    if limit == 0 { return; }
    if !(|page| < limit && !pageReverse) {
      links := links + [NextLink(page)];
    }
    if !(|page| < limit && pageReverse) {
      links := links + [PreviousLink(page)];
    }
  }

  function Follow(items: seq<Item>, limit: nat, link: Link): seq<Item> {
    Page(items, limit, link.marker, link.reverse)
  }

  // ---------- Walking through all pages ----------

  predicate DistinctIds(items: seq<Item>) {
    && (forall i | 0 <= i < |items| :: items[i].id != "")
    && forall i, j | 0 <= i < j < |items| :: items[i].id != items[j].id
  }

  lemma {:induction false} MarkerFound(items: seq<Item>, k: nat)
    requires DistinctIds(items) && k < |items|
    ensures MarkerIndex(items, Some(items[k].id)) == k
  {
    if k > 0 {
      assert items[0].id != items[k].id;
      forall i, j | 0 <= i < j < |items[1..]| ensures items[1..][i].id != items[1..][j].id {
        assert items[i + 1].id != items[j + 1].id;
      }
      MarkerFound(items[1..], k - 1);
    }
  }

  /** The pages met when following next links, from the one after `marker` on. */
  function Walk(items: seq<Item>, limit: nat, marker: Option<string>): seq<seq<Item>>
    requires limit > 0 && DistinctIds(items)
    decreases |items| - MarkerIndex(items, marker)
  {
    var page := Page(items, limit, marker, false);
    if |page| < limit then [page]
    else
      var link := NextLink(page);
      (LinkGoesOn(items, limit, marker); [page] + Walk(items, limit, link.marker))
  }

  lemma LinkGoesOn(items: seq<Item>, limit: nat, marker: Option<string>)
    requires limit > 0 && DistinctIds(items) && |Page(items, limit, marker, false)| >= limit
    ensures var i, page := MarkerIndex(items, marker), Page(items, limit, marker, false);
            page == items[i + 1..i + limit + 1] && MarkerIndex(items, NextLink(page).marker) == i + limit < |items|
  {
    var i, page := MarkerIndex(items, marker), Page(items, limit, marker, false);
    assert page == items[i + 1..i + limit + 1];
    assert page[limit - 1] == items[i + limit];
    MarkerFound(items, i + limit);
  }

  function Flatten(pages: seq<seq<Item>>): seq<Item> {
    if pages == [] then [] else pages[0] + Flatten(pages[1..])
  }

  lemma ShortPage(items: seq<Item>, limit: nat, marker: Option<string>)
    requires limit > 0 && |Page(items, limit, marker, false)| < limit
    ensures var i := MarkerIndex(items, marker); Page(items, limit, marker, false) == items[i + 1..] && |items| - i - 1 < limit
  {
  }

  lemma OnePageMore(pages: nat, limit: nat, left: int)
    requires (pages - 1) * limit <= left < pages * limit
    ensures pages * limit <= limit + left < (pages + 1) * limit
  {
  }

  lemma {:induction false} WalkCovers(items: seq<Item>, limit: nat, marker: Option<string>)
    requires limit > 0 && DistinctIds(items)
    ensures var left, pages := items[MarkerIndex(items, marker) + 1..], Walk(items, limit, marker);
            && Flatten(pages) == left && pages != []
            && (|pages| - 1) * limit <= |left| < |pages| * limit
            && forall p :: p in pages ==> |p| <= limit
    decreases |items| - MarkerIndex(items, marker)
  {
    var i, page := MarkerIndex(items, marker), Page(items, limit, marker, false);
    hide DistinctIds, Flatten, MarkerIndex, NextLink, Page;
    if |page| < limit {
      ShortPage(items, limit, marker);
      PagesFrom(page, []);
    } else {
      LinkGoesOn(items, limit, marker);
      WalkCovers(items, limit, NextLink(page).marker);
      var rest := Walk(items, limit, NextLink(page).marker);
      PagesFrom(page, rest);
      assert items[i + 1..] == items[i + 1..i + limit + 1] + items[i + limit + 1..];
      OnePageMore(|rest|, limit, |items| - (i + limit + 1));
    }
  }

  lemma PagesFrom(page: seq<Item>, rest: seq<seq<Item>>)
    ensures Flatten([page] + rest) == page + Flatten(rest) && [page] + [] == [page] && page + Flatten([]) == page
  {
    assert ([page] + rest)[1..] == rest;
  }

  /** Following next links from the start ends, and shows every item once, in order, in pages of at most the limit; the
      number of pages is the number of full ones and one more. */
  lemma WalkShowsAll(items: seq<Item>, limit: nat)
    requires limit > 0 && DistinctIds(items)
    ensures var pages := Walk(items, limit, None);
            && Flatten(pages) == items && (forall p :: p in pages ==> |p| <= limit)
            && (|pages| - 1) * limit <= |items| < |pages| * limit
  {
    WalkCovers(items, limit, None);
    assert items[0..] == items;
  }

  // ---------- There and back ----------

  /** On a full page with a next page: going on and back again leads to the same page exactly when the next page is not
      empty. The empty last page has no item to serve as marker, and its previous link misses the end of the list. */
  lemma NextThenPrevious(items: seq<Item>, limit: nat, marker: Option<string>)
    requires limit > 0 && DistinctIds(items)
    requires |Page(items, limit, marker, false)| >= limit
    ensures var page := Page(items, limit, marker, false);
            var next := Follow(items, limit, NextLink(page));
            Follow(items, limit, PreviousLink(next)) == page <==> next != []
  {
    hide DistinctIds, MarkerIndex, Page;
    var i, page := MarkerIndex(items, marker), Page(items, limit, marker, false);
    LinkGoesOn(items, limit, marker);
    var next := Follow(items, limit, NextLink(page));
    var j := i + limit + 1;
    if j < |items| {
      NextBegins(items, limit, i + limit, NextLink(page).marker);
      assert NextLink(page).reverse == false;
      MarkerFound(items, j);
      BackBefore(items, limit, j, PreviousLink(next).marker);
      assert PreviousLink(next).reverse;
    } else {
      NothingFollows(items, limit, NextLink(page).marker);
      assert NextLink(page).reverse == false;
      assert next == [];
      BackFromEmpty(items, limit);
      assert page == items[|items| - limit..];
    }
  }

  lemma BackBefore(items: seq<Item>, limit: nat, j: nat, marker: Option<string>)
    requires limit > 0 && limit <= j < |items| && MarkerIndex(items, marker) == j
    ensures Page(items, limit, marker, true) == items[j - limit..j]
  {
  }

  lemma NextBegins(items: seq<Item>, limit: nat, i: nat, marker: Option<string>)
    requires limit > 0 && MarkerIndex(items, marker) == i && i + 1 < |items|
    ensures Page(items, limit, marker, false) != [] && Page(items, limit, marker, false)[0] == items[i + 1]
  {
  }

  lemma NothingFollows(items: seq<Item>, limit: nat, marker: Option<string>)
    requires limit > 0 && MarkerIndex(items, marker) == |items| - 1
    ensures Page(items, limit, marker, false) == []
  {
  }

  /** The previous link of an empty page leads to a slice that stops short of the last item. */
  lemma BackFromEmpty(items: seq<Item>, limit: nat)
    requires limit > 0 && limit <= |items| && DistinctIds(items)
    ensures Follow(items, limit, PreviousLink([])) != items[|items| - limit..]
  {
    var back, n := Follow(items, limit, PreviousLink([])), |items|;

    assert back == PySlice(items, -1 - limit, -1);
    var lo := if n - 1 < limit then 0 else n - 1 - limit;
    assert Clamp(-1 - limit, n) == lo && Clamp(-1, n) == n - 1;
    assert n == 1 || items[n - 1].id != items[n - 2].id;
    var page := items[n - limit..];
    assert page[limit - 1] == items[n - 1];
    if lo < n - 1 {
      assert back == items[lo..n - 1];
      assert |back| == limit ==> back[limit - 1] == items[n - 2];
    }
  }

  /** From any page but the first of a walk: back and on again leads to the same page. */
  lemma PreviousThenNext(items: seq<Item>, limit: nat, marker: Option<string>)
    requires limit > 0 && DistinctIds(items)
    requires MarkerIndex(items, marker) + 1 >= limit && Page(items, limit, marker, false) != []
    ensures var page := Page(items, limit, marker, false);
            var previous := Follow(items, limit, PreviousLink(page));
            |previous| == limit && Follow(items, limit, NextLink(previous)) == page
  {
    hide DistinctIds, MarkerIndex, Page;
    var i, page := MarkerIndex(items, marker), Page(items, limit, marker, false);
    var j := i + 1;
    PageBegins(items, limit, marker);
    MarkerFound(items, j);
    assert PreviousLink(page).marker == Some(items[j].id) && PreviousLink(page).reverse;
    BackBefore(items, limit, j, PreviousLink(page).marker);
    var previous := Follow(items, limit, PreviousLink(page));
    assert previous[limit - 1] == items[i];
    assert NextLink(previous).marker == Some(items[i].id) && !NextLink(previous).reverse;
    MarkerFound(items, i);
    SamePage(items, limit, marker, NextLink(previous).marker);
  }

  lemma PageBegins(items: seq<Item>, limit: nat, marker: Option<string>)
    requires limit > 0 && Page(items, limit, marker, false) != []
    ensures var i := MarkerIndex(items, marker); i + 1 < |items| && Page(items, limit, marker, false)[0] == items[i + 1]
  {
  }

  lemma SamePage(items: seq<Item>, limit: nat, a: Option<string>, b: Option<string>)
    requires MarkerIndex(items, a) == MarkerIndex(items, b)
    ensures Page(items, limit, a, false) == Page(items, limit, b, false)
  {
  }
}
