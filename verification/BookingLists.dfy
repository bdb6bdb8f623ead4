/** Listing bookings: scope and status filters, and pagination (src/services/booking.service.ts). */
module BookingLists {
  import opened Wrappers
  import opened Bookings

  const PAGE_SIZE_MAX := 50

  datatype Scope = Upcoming | Past | All

  /** A requested status replaces the status condition of the upcoming scope. */
  predicate Matches(b: Booking, scope: Scope, status: Option<BookingStatus>, now: int) {
    && (match scope
        case Upcoming => now <= b.startAt && (status.None? ==> Active(b))
        case Past => b.startAt < now || !Active(b)
        case All => true)
    && (status.Some? ==> b.status == status.value)
  }

  /** Upcoming and past together are all bookings of the requested status, or all without one. They
      share a booking exactly when that status is an inactive one and the booking has not started. */
  lemma ScopesPartitionIff(b: Booking, status: Option<BookingStatus>, now: int)
    ensures Matches(b, All, status, now) <==> status.None? || status == Some(b.status)
    ensures Matches(b, Upcoming, status, now) || Matches(b, Past, status, now) <==> Matches(b, All, status, now)
    ensures Matches(b, Upcoming, status, now) && Matches(b, Past, status, now)
      <==> status == Some(b.status) && b.status !in {Pending, Confirmed} && now <= b.startAt
  {
  }

  /** Which bookings are upcoming. */
  lemma UpcomingIff(b: Booking, status: Option<BookingStatus>, now: int)
    ensures Matches(b, Upcoming, status, now) <==>
      now <= b.startAt && b.status in if status.Some? then {status.value} else {Pending, Confirmed}
  {
  }

  function Max(a: int, b: int): int {
    if a > b then a else b
  }

  function Min(a: int, b: int): int {
    if a < b then a else b
  }

  function TotalPages(total: nat, limit: int): (pages: int)
    requires 0 < limit
  {
    Max(1, (total + limit - 1) / limit)
  }

  /** Skip the pages before, then take at most a page. */
  function PageOf<T>(xs: seq<T>, page: int, limit: int): seq<T>
    requires 1 <= page && 0 < limit
  {
    var skipped := Min((page - 1) * limit, |xs|);
    xs[skipped..Min(skipped + limit, |xs|)]
  }

  /** The pages 1..n, one after another. */
  function Pages<T>(xs: seq<T>, n: nat, limit: int): seq<T>
    requires 0 < limit
  {
    if n == 0 then [] else Pages(xs, n - 1, limit) + PageOf(xs, n, limit)
  }

  lemma {:induction false} PagesArePrefix<T>(xs: seq<T>, n: nat, limit: int)
    requires 0 < limit
    ensures 0 <= n * limit && Pages(xs, n, limit) == xs[..Min(n * limit, |xs|)]
  {
    if 0 < n {
      PagesArePrefix(xs, n - 1, limit);
      assert n * limit == (n - 1) * limit + limit;
      var a, b := Min((n - 1) * limit, |xs|), Min(n * limit, |xs|);
      assert PageOf(xs, n, limit) == xs[a..b];
      assert xs[..a] + xs[a..b] == xs[..b];
    }
  }

  lemma PageCount(total: nat, limit: int)
    requires 0 < limit
    ensures var pages := TotalPages(total, limit);
      && total <= pages * limit
      && (0 < total ==> (pages - 1) * limit < total)
  {
    var q, r := (total + limit - 1) / limit, (total + limit - 1) % limit;
    assert total + limit - 1 == q * limit + r;
    assert (q - 1) * limit == q * limit - limit;
    if q < 1 {
      assert q * limit <= 0;
    }
  }

  lemma {:induction false} PageBefore(page: int, pages: int, limit: int)
    requires 1 <= page <= pages && 0 < limit
    ensures 0 <= (page - 1) * limit <= (pages - 1) * limit
    ensures page < pages ==> page * limit <= (pages - 1) * limit
    decreases pages - page
  {
    assert page * limit == (page - 1) * limit + limit;
    if page < pages {
      PageBefore(page + 1, pages, limit);
    }
    StartOfPage(page, limit);
  }

  lemma {:induction false} StartOfPage(page: int, limit: int)
    requires 1 <= page && 0 < limit
    ensures 0 <= (page - 1) * limit
  {
    if 1 < page {
      StartOfPage(page - 1, limit);
      assert (page - 1) * limit == (page - 2) * limit + limit;
    }
  }

  /** All pages together list every element once and in order. */
  lemma PagesPartition<T>(xs: seq<T>, limit: int)
    requires 0 < limit
    ensures Pages(xs, TotalPages(|xs|, limit), limit) == xs
  {
    PageCount(|xs|, limit);
    PagesArePrefix(xs, TotalPages(|xs|, limit), limit);
  }

  /** Every page but the last is full. */
  lemma PagesFull<T>(xs: seq<T>, page: int, limit: int)
    requires 0 < limit && 1 <= page < TotalPages(|xs|, limit)
    ensures |PageOf(xs, page, limit)| == limit
  {
    PageCount(|xs|, limit);
    PageBefore(page, TotalPages(|xs|, limit), limit);
    assert page * limit == (page - 1) * limit + limit;
  }

  /** Any requested page is brought back to an existing one, which shows something whenever
      there is anything to show. */
  method ListPage<T>(xs: seq<T>, requested: int, limit: int) returns (data: seq<T>, page: int, totalPages: int)
    requires 1 <= requested && 1 <= limit <= PAGE_SIZE_MAX
    ensures totalPages == TotalPages(|xs|, limit) && page == Min(requested, totalPages)
    ensures 1 <= page <= totalPages && data == PageOf(xs, page, limit)
    ensures |data| <= limit && (data == [] <==> xs == [])
  {
    totalPages := Max(1, (|xs| + limit - 1) / limit);
    page := Min(requested, totalPages);
    PageCount(|xs|, limit);
    PageBefore(page, totalPages, limit);
    var skipped := Min((page - 1) * limit, |xs|);
    data := xs[skipped..];
    data := data[..Min(limit, |data|)];
  }
}
