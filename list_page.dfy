/** The rules of the ticker list page: skip-based paging with a fixed page size
    of 10, the case-insensitive ticker search, the start/end date guard and reset,
    the page label, and the "Go to Cart" / "Add to Cart" choice. The fetch is a
    parameter: its result is handed to `ApplyFetchResult`. Dates are the input
    elements' value strings, compared as JavaScript compares strings. */
module ListPage {
  import opened Common
  import opened CartStore
  import opened CartContext

  /** `limit`, a state value never updated. */
  const Limit: nat := 10

  const DateAlert: string := "Start date cannot be greater than End date!"

  // ---------------------------------------------------------------------------
  // Search

  predicate TickerMatches(item: Item, query: string) {
    Contains(Lower(item.ticker), Lower(query))
  }

  /** The search effect: the fetched rows whose lower-cased ticker includes the
      lower-cased query, in their order. */
  function VisibleRows(data: seq<Item>, query: string): seq<Item>
    decreases |data|
  {
    if data == [] then []
    else (if TickerMatches(data[0], query) then [data[0]] else []) + VisibleRows(data[1..], query)
  }

  /** An item is visible exactly when it was fetched and its ticker matches. */
  lemma {:induction false} VisibleMembers(data: seq<Item>, query: string, item: Item)
    ensures item in VisibleRows(data, query) <==> item in data && TickerMatches(item, query)
    decreases |data|
  {
    if data != [] {
      VisibleMembers(data[1..], query, item);
      assert item in data <==> item == data[0] || item in data[1..] by {
        assert data == [data[0]] + data[1..];
      }
    }
  }

  /** The search keeps the fetched order: it distributes over concatenation. */
  lemma {:induction false} VisibleAppend(a: seq<Item>, b: seq<Item>, query: string)
    ensures VisibleRows(a + b, query) == VisibleRows(a, query) + VisibleRows(b, query)
    decreases |a|
  {
    if a != [] {
      VisibleAppend(a[1..], b, query);
      var h := if TickerMatches(a[0], query) then [a[0]] else [];
      assert (a + b)[0] == a[0] && (a + b)[1..] == a[1..] + b;
      assert VisibleRows(a + b, query) == h + (VisibleRows(a[1..], query) + VisibleRows(b, query));
      assert h + (VisibleRows(a[1..], query) + VisibleRows(b, query))
          == (h + VisibleRows(a[1..], query)) + VisibleRows(b, query);
    } else {
      assert a + b == b;
    }
  }

  /** An empty search shows every fetched row. */
  lemma {:induction false} EmptySearchShowsAll(data: seq<Item>)
    ensures VisibleRows(data, "") == data
    decreases |data|
  {
    if data != [] {
      ContainsEmpty(Lower(data[0].ticker), "");
      EmptySearchShowsAll(data[1..]);
    }
  }

  /** The search ignores the case of ASCII letters in the query. */
  lemma {:induction false} SearchIgnoresCase(data: seq<Item>, query: string)
    ensures VisibleRows(data, Lower(query)) == VisibleRows(data, query)
    decreases |data|
  {
    LowerIdempotent(query);
    if data != [] {
      SearchIgnoresCase(data[1..], query);
    }
  }

  lemma LowerIdempotent(s: string)
    ensures Lower(Lower(s)) == Lower(s)
  {
  }

  // ---------------------------------------------------------------------------
  // Paging

  /** `handleNextPage`: advance by one page while rows remain past it. */
  function NextSkip(skip: int, total: int): int {
    if skip + Limit < total then skip + Limit else skip
  }

  /** `handlePrevPage`: go back one page unless that would go below 0. */
  function PrevSkip(skip: int): int {
    if skip - Limit >= 0 then skip - Limit else skip
  }

  /** `skip` starts at 0 and only moves by whole pages. */
  predicate SkipWellFormed(skip: int) {
    skip >= 0 && skip % Limit == 0
  }

  /** Both buttons keep `skip` a non-negative multiple of the page size; Next
      moves only to a page that starts before `total`, Previous only to a page
      at or after 0, and Previous undoes Next. */
  lemma PagingKeepsSkip(skip: int, total: int)
    requires SkipWellFormed(skip)
    ensures SkipWellFormed(NextSkip(skip, total)) && SkipWellFormed(PrevSkip(skip))
    ensures NextSkip(skip, total) != skip ==>
      NextSkip(skip, total) == skip + Limit && NextSkip(skip, total) < total
    ensures NextSkip(skip, total) == skip <==> skip + Limit >= total
    ensures PrevSkip(skip) == skip <==> skip == 0
    ensures NextSkip(skip, total) != skip ==> PrevSkip(NextSkip(skip, total)) == skip
  {
  }

  /** `Math.ceil(n / limit)` for a non-negative `n`. */
  function CeilPages(n: nat): nat {
    (n + Limit - 1) / Limit
  }

  /** "Page X of Y". */
  function PageLabel(skip: nat, total: nat): (nat, nat) {
    (CeilPages(skip) + 1, CeilPages(total))
  }

  /** On a well-formed `skip` the label counts pages from 1, Next moves it up by
      one, and once rows exist it never passes the page count. */
  lemma PageLabelInRange(skip: nat, total: nat)
    requires SkipWellFormed(skip) && (skip == 0 || skip < total)
    ensures PageLabel(skip, total).0 == skip / Limit + 1
    ensures total > 0 ==> PageLabel(skip, total).0 <= PageLabel(skip, total).1
    ensures NextSkip(skip, total) != skip ==>
      PageLabel(NextSkip(skip, total), total).0 == PageLabel(skip, total).0 + 1
  {
  }

  /** A date change refetches without resetting `skip`, so the total can drop to
      or below `skip`; the label then shows a page past the page count, as in
      "Page 3 of 1" for skip 20 and total 5. */
  lemma PageLabelOverrun(skip: nat, total: nat)
    requires SkipWellFormed(skip) && total <= skip
    ensures PageLabel(skip, total).0 > PageLabel(skip, total).1
    ensures PageLabel(20, 5) == (3, 1)
  {
    assert (total + Limit - 1) / Limit <= (skip + Limit - 1) / Limit;
  }

  // ---------------------------------------------------------------------------
  // Date range

  datatype DateRange = DateRange(startDate: string, endDate: string)

  /** A new start date is refused (with an alert) when an end date is set and the
      new start is later than it. */
  predicate StartAccepted(endDate: string, newStart: string) {
    !(endDate != "" && StrLess(endDate, newStart))
  }

  function ChangeStart(range: DateRange, newStart: string): (r: DateRange)
    ensures r.endDate == range.endDate
  {
    if StartAccepted(range.endDate, newStart) then range.(startDate := newStart) else range
  }

  /** `handleEndDateChange` accepts any value. */
  function ChangeEnd(range: DateRange, newEnd: string): (r: DateRange)
    ensures r.startDate == range.startDate
  {
    range.(endDate := newEnd)
  }

  const ResetRange: DateRange := DateRange("", "")

  /** A start change either takes the new value, which then is not after a set
      end date, or leaves the range as it was. */
  lemma ChangeStartEffect(range: DateRange, newStart: string)
    ensures StartAccepted(range.endDate, newStart) ==> ChangeStart(range, newStart).startDate == newStart
    ensures !StartAccepted(range.endDate, newStart) ==> ChangeStart(range, newStart) == range
    ensures var r := ChangeStart(range, newStart);
      r.startDate == range.startDate || r.endDate == "" || !StrLess(r.endDate, r.startDate)
  {
  }

  /** Only the start date is checked: an end date set after the start may come
      before it, so "start is not after end" is not kept. */
  lemma EndMayPrecedeStart()
    ensures var r := ChangeEnd(ChangeStart(ResetRange, "2024-02-01"), "2024-01-01");
      r.endDate != "" && StrLess(r.endDate, r.startDate)
  {
    var r := ChangeEnd(ChangeStart(ResetRange, "2024-02-01"), "2024-01-01");
    assert r == DateRange("2024-02-01", "2024-01-01");
    assert StrLess("2024-01-01"[5..], "2024-02-01"[5..]);
  }

  // ---------------------------------------------------------------------------
  // Cart button

  /** "Go to Cart" is shown for an item exactly when a cart line has its id;
      adding it shows it, removing it hides it, a quantity change keeps it. */
  lemma GoToCartFollowsCart(cart: seq<Item>, item: Item, quantity: int)
    ensures HasId(AddLine(cart, item), item.id)
    ensures !HasId(Without(cart, item.id), item.id)
    ensures HasId(WithQuantity(cart, item.id, quantity), item.id) <==> HasId(cart, item.id)
    ensures !HasId([], item.id)
  {
    if !HasId(cart, item.id) {
      assert AddLine(cart, item)[|cart|].id == item.id;
    } else {
      var i :| 0 <= i < |cart| && cart[i].id == item.id;
      assert AddLine(cart, item)[i].id == item.id;
    }
    var w := WithQuantity(cart, item.id, quantity);
    if HasId(w, item.id) {
      var i :| 0 <= i < |w| && w[i].id == item.id;
      assert cart[i].id == item.id;
    }
    if HasId(cart, item.id) {
      var i :| 0 <= i < |cart| && cart[i].id == item.id;
      assert w[i].id == item.id;
    }
  }

  // ---------------------------------------------------------------------------
  // The page's state

  class ListPageState {
    var data: seq<Item>
    var total: int
    var skip: int
    var searchQuery: string
    var range: DateRange
    /** Alerts shown, oldest first. */
    var alerts: seq<string>

    ghost predicate Valid()
      reads this
    {
      SkipWellFormed(skip)
    }

    constructor ()
      ensures Valid()
      ensures data == [] && total == 0 && skip == 0 && searchQuery == ""
      ensures range == ResetRange && alerts == []
    {
      data := [];
      total := 0;
      skip := 0;
      searchQuery := "";
      range := ResetRange;
      alerts := [];
    }

    /** The rows shown once the search effect has run. */
    function FilteredData(): seq<Item>
      reads this
    {
      VisibleRows(data, searchQuery)
    }

    /** The fetch's result: `tickers_with_dates || []` and `total`. */
    method ApplyFetchResult(tickers: Option<seq<Item>>, newTotal: int)
      requires Valid()
      modifies this
      ensures Valid()
      ensures data == (if tickers.Some? then tickers.value else [])
      ensures total == newTotal
      ensures skip == old(skip) && searchQuery == old(searchQuery)
      ensures range == old(range) && alerts == old(alerts)
    {
      data := if tickers.Some? then tickers.value else [];
      total := newTotal;
    }

    method SetSearchQuery(query: string)
      requires Valid()
      modifies this
      ensures Valid() && searchQuery == query
      ensures data == old(data) && total == old(total) && skip == old(skip)
      ensures range == old(range) && alerts == old(alerts)
    {
      searchQuery := query;
    }

    method HandleNextPage()
      requires Valid()
      modifies this
      ensures Valid() && skip == NextSkip(old(skip), total)
      ensures data == old(data) && total == old(total) && searchQuery == old(searchQuery)
      ensures range == old(range) && alerts == old(alerts)
    {
      PagingKeepsSkip(skip, total);
      if skip + Limit < total {
        skip := skip + Limit;
      }
    }

    method HandlePrevPage()
      requires Valid()
      modifies this
      ensures Valid() && skip == PrevSkip(old(skip))
      ensures data == old(data) && total == old(total) && searchQuery == old(searchQuery)
      ensures range == old(range) && alerts == old(alerts)
    {
      PagingKeepsSkip(skip, total);
      if skip - Limit >= 0 {
        skip := skip - Limit;
      }
    }

    method HandleStartDateChange(newStart: string)
      requires Valid()
      modifies this
      ensures Valid() && range == ChangeStart(old(range), newStart)
      ensures alerts == old(alerts) + (if StartAccepted(old(range).endDate, newStart) then [] else [DateAlert])
      ensures data == old(data) && total == old(total)
      ensures skip == old(skip) && searchQuery == old(searchQuery)
    {
      if range.endDate != "" && StrLess(range.endDate, newStart) {
        alerts := alerts + [DateAlert];
        return;
      }
      range := range.(startDate := newStart);
    }

    method HandleEndDateChange(newEnd: string)
      requires Valid()
      modifies this
      ensures Valid() && range == ChangeEnd(old(range), newEnd)
      ensures data == old(data) && total == old(total) && skip == old(skip)
      ensures searchQuery == old(searchQuery) && alerts == old(alerts)
    {
      range := range.(endDate := newEnd);
    }

    method HandleReset()
      requires Valid()
      modifies this
      ensures Valid() && range == ResetRange
      ensures data == old(data) && total == old(total) && skip == old(skip)
      ensures searchQuery == old(searchQuery) && alerts == old(alerts)
    {
      range := DateRange("", "");
    }
  }
}
