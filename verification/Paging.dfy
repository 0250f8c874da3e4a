/** Pages of a fixed, ordered result list. */
module Paging {
  /** `Math.ceil`. */
  function Ceiling(x: real): int { -((-x).Floor) }

  datatype PaginatedResponse<T> = PaginatedResponse(data: seq<T>, total: nat, page: int, limit: int, totalPages: int)

  /** The query with `skip` and `take`. */
  function Slice<T>(rows: seq<T>, skip: nat, take: nat): seq<T> {
    if skip >= |rows| then [] else if skip + take >= |rows| then rows[skip..] else rows[skip..skip + take]
  }

  /** `findMyEnrollments`: page 1 is the first. */
  function FindPage<T>(rows: seq<T>, page: nat, limit: nat): PaginatedResponse<T>
    requires page >= 1 && limit >= 1
  {
    SkipIsNat(page, limit);
    PaginatedResponse(Slice(rows, (page - 1) * limit, limit), |rows|, page, limit, TotalPages(|rows|, limit))
  }

  lemma SkipIsNat(page: nat, limit: nat)
    requires page >= 1
    ensures (page - 1) * limit >= 0
  {
  }

  function TotalPages(total: nat, limit: nat): int
    requires limit >= 1
  {
    Ceiling(total as real / limit as real)
  }

  /** The last page starts before the end of the list and reaches it. */
  lemma CeilingBounds(total: nat, limit: nat)
    requires limit >= 1
    ensures TotalPages(total, limit) >= 0
    ensures (TotalPages(total, limit) - 1) * limit < total <= TotalPages(total, limit) * limit
  {
    var n, q := TotalPages(total, limit), total as real / limit as real;
    assert (n - 1) as real < q <= n as real;
    assert q * limit as real == total as real;
    Scaled(n - 1, limit, q);
    Scaled(n, limit, q);
    assert 0.0 <= q;
  }

  lemma Scaled(n: int, limit: nat, q: real)
    requires limit >= 1
    ensures n as real < q ==> (n * limit) as real < q * limit as real
    ensures q <= n as real ==> q * limit as real <= (n * limit) as real
  {
    assert (n * limit) as real == n as real * limit as real;
  }

  /** A response tells the length of the whole list, which page it is and how many there are of that list, and holds
      the rows from the page's start on. */
  lemma PageOfList<T>(rows: seq<T>, page: nat, limit: nat)
    requires limit >= 1 && page >= 1
    ensures var p := FindPage(rows, page, limit);
      && p.total == |rows| && p.page == page && p.limit == limit
      && (p.totalPages - 1) * limit < |rows| <= p.totalPages * limit
      && forall i :: 0 <= i < |p.data| ==>
           0 <= (page - 1) * limit + i < |rows| && p.data[i] == rows[(page - 1) * limit + i]
  {
    CeilingBounds(|rows|, limit);
    SkipIsNat(page, limit);
  }

  /** Pages 1 to `count`, one after another. */
  function Pages<T>(rows: seq<T>, count: nat, limit: nat): seq<T>
    requires limit >= 1
  {
    if count == 0 then [] else Pages(rows, count - 1, limit) + FindPage(rows, count, limit).data
  }

  lemma {:induction false} PagesArePrefix<T>(rows: seq<T>, count: nat, limit: nat)
    requires limit >= 1
    ensures count * limit >= 0
    ensures Pages(rows, count, limit) == rows[..if count * limit < |rows| then count * limit else |rows|]
  {
    if count > 0 {
      PagesArePrefix(rows, count - 1, limit);
      assert count * limit == (count - 1) * limit + limit;
      SkipIsNat(count, limit);
    }
  }

  lemma Monotone(a: int, b: int, limit: nat)
    requires a <= b
    ensures a * limit <= b * limit
  {
  }

  /** The pages 1 to `totalPages` partition the list: together they are the list, none of them is empty, and every
      later page is. */
  lemma PagesPartition<T>(rows: seq<T>, page: nat, limit: nat)
    requires limit >= 1 && page >= 1
    ensures TotalPages(|rows|, limit) >= 0 && Pages(rows, TotalPages(|rows|, limit), limit) == rows
    ensures FindPage(rows, page, limit).data != [] <==> page <= FindPage(rows, page, limit).totalPages
    ensures |FindPage(rows, page, limit).data| <= limit
    ensures page < FindPage(rows, page, limit).totalPages ==> |FindPage(rows, page, limit).data| == limit
  {
    var n := TotalPages(|rows|, limit);
    CeilingBounds(|rows|, limit);
    PagesArePrefix(rows, n, limit);
    SkipIsNat(page, limit);
    if page <= n {
      Monotone(page - 1, n - 1, limit);
    } else {
      Monotone(n, page - 1, limit);
    }
    if page < n {
      Monotone(page, n - 1, limit);
      assert page * limit == (page - 1) * limit + limit;
    }
  }
}
