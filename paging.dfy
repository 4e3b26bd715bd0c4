/** The page arithmetic the paginated listings share: `page` and `limit`
    from the query string, `skip = (page - 1) * limit`, at most `limit`
    items, `totalPages = Math.ceil(total / limit)`. */
module Paging {
  import opened Common
  import opened Sequences

  /** One page of a listing, as the handlers answer it. */
  datatype Page<T> = Page(currentPage: int, totalPages: int, totalItems: nat, items: seq<T>)

  /** `parseInt(q) || d`: an absent or unparseable query value (None) or a
      zero falls back to `d`; any other integer, negative ones included,
      is kept. */
  function QueryInt(q: Option<int>, d: int): (n: int)
    ensures d != 0 ==> n != 0
    ensures q.None? || q.value == 0 ==> n == d
    ensures q.Some? && q.value != 0 ==> n == q.value
  {
    if q.None? || q.value == 0 then d else q.value
  }

  function Abs(x: int): nat {
    if x < 0 then -x else x
  }

  function Min(a: nat, b: nat): nat {
    if a <= b then a else b
  }

  /** `Math.ceil(a / b)` for a count `a` and a non-zero `b`. */
  function CeilDiv(a: nat, b: int): (q: int)
    requires b != 0
    ensures b > 0 ==> (q - 1) * b < a <= q * b
    ensures b < 0 ==> q * b <= a < (q - 1) * b
  {
    if b > 0 then
      var q := (a + b - 1) / b;
      assert a + b - 1 == q * b + (a + b - 1) % b;
      q
    else
      var q := a / -b;
      assert a == q * -b + a % -b;
      -q
  }

  /** `(page - 1) * limit`, the number of items before the page. */
  function Skip(page: int, limit: int): int {
    (page - 1) * limit
  }

  /** `.skip(skip).limit(n)`: at most `n` elements of `all`, from `skip` on. */
  function Window<T>(all: seq<T>, skip: nat, n: nat): (w: seq<T>)
    ensures |w| == if skip >= |all| then 0 else Min(n, |all| - skip)
    ensures forall k :: 0 <= k < |w| ==> w[k] == all[skip + k]
  {
    if skip >= |all| then [] else all[skip..skip + Min(n, |all| - skip)]
  }

  /** The page the listings answer for the ordered, filtered collection `all`.
      A negative skip is refused by the database; a negative limit returns
      at most that many items in one batch. */
  function Paginate<T>(all: seq<T>, pageQ: Option<int>, limitQ: Option<int>): (r: Result<Page<T>>)
    ensures var page, limit := QueryInt(pageQ, 1), QueryInt(limitQ, 10);
      && (r.Err? <==> Skip(page, limit) < 0)
      && (r.Err? ==> r.error == DatabaseError)
      && (r.Ok? ==>
            && r.value.currentPage == page
            && r.value.totalItems == |all|
            && |r.value.items| <= Abs(limit)
            && (r.value.items != [] ==> Skip(page, limit) + |r.value.items| <= |all|)
            && (forall k :: 0 <= k < |r.value.items| ==> r.value.items[k] == all[Skip(page, limit) + k])
            && (Skip(page, limit) + Abs(limit) <= |all| ==> |r.value.items| == Abs(limit))
            && (Skip(page, limit) >= |all| <==> r.value.items == [])
            && (limit > 0 ==> (r.value.totalPages - 1) * limit < |all| <= r.value.totalPages * limit)
            && (limit < 0 ==> r.value.totalPages * limit <= |all| < (r.value.totalPages - 1) * limit))
  {
    var page, limit := QueryInt(pageQ, 1), QueryInt(limitQ, 10);
    var skip := Skip(page, limit);
    if skip < 0 then Err(DatabaseError)
    else Ok(Page(page, CeilDiv(|all|, limit), |all|, Window(all, skip, Abs(limit))))
  }

  /** The element at position `i` is the `i % limit`-th item of page
      `i / limit + 1`. */
  lemma PageOfPosition<T>(all: seq<T>, limit: int, i: nat)
    requires 0 < limit && i < |all|
    ensures 1 <= i / limit + 1
    ensures var r := Paginate(all, Some(i / limit + 1), Some(limit));
      r.Ok? && i % limit < |r.value.items| && r.value.items[i % limit] == all[i]
  {
    var page := i / limit + 1;
    assert QueryInt(Some(page), 1) == page;
    assert i == (page - 1) * limit + i % limit;
  }

  /** Every element of the listing is on some page, whatever the page size. */
  lemma EveryElementListed<T>(all: seq<T>, limit: int, x: T)
    requires 0 < limit && x in all
    ensures exists page :: 1 <= page && Paginate(all, Some(page), Some(limit)).Ok?
                           && x in Paginate(all, Some(page), Some(limit)).value.items
  {
    var i :| 0 <= i < |all| && all[i] == x;
    PageOfPosition(all, limit, i);
    var page, j := i / limit + 1, i % limit;
    var r := Paginate(all, Some(page), Some(limit));
    assert r.Ok? && r.value.items[j] == x;
    assert 1 <= page && x in r.value.items;
  }

  /** With a positive page and limit the query never fails, and a page is
      empty exactly when it lies beyond `totalPages`. */
  lemma PageEmptyIffBeyondLast<T>(all: seq<T>, page: int, limit: int)
    requires 1 <= page && 1 <= limit
    ensures var r := Paginate(all, Some(page), Some(limit));
      r.Ok? && (r.value.items == [] <==> page > r.value.totalPages)
  {
    var r := Paginate(all, Some(page), Some(limit));
    assert QueryInt(Some(page), 1) == page && QueryInt(Some(limit), 10) == limit;
    MulMonotonic(0, page - 1, limit);
    assert Skip(page, limit) >= 0;
    var t := r.value.totalPages;
    if page > t {
      MulMonotonic(t, page - 1, limit);
    } else {
      MulMonotonic(page - 1, t - 1, limit);
    }
  }

  /** A page of a listing in decreasing order of `key` is in that order
      too. */
  lemma PageKeepsOrder<T>(all: seq<T>, pageQ: Option<int>, limitQ: Option<int>, key: T -> int)
    requires Descending(all, key)
    ensures var r := Paginate(all, pageQ, limitQ);
      r.Ok? ==> Descending(r.value.items, key)
  {
    var r := Paginate(all, pageQ, limitQ);
    if r.Ok? {
      var skip := Skip(QueryInt(pageQ, 1), QueryInt(limitQ, 10));
      forall i, j | 0 <= i < j < |r.value.items| ensures key(r.value.items[i]) > key(r.value.items[j]) {
        assert r.value.items[i] == all[skip + i] && r.value.items[j] == all[skip + j];
      }
    }
  }

  lemma MulMonotonic(a: int, b: int, c: int)
    requires a <= b && 0 <= c
    ensures a * c <= b * c
  {
  }
}
