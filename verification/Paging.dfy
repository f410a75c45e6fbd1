// Paging through the user list, in Go's wrapping 64-bit integers.
module Paging {
  import opened Model
  import opened Listing
  import opened Words

  // Go's division truncates toward zero; Dafny's rounds down.
  function Quot(a: int, b: int): int
    requires b > 0
  {
    if a >= 0 then a / b else -(-a / b)
  }

  function PageOrDefault(page: int): int {
    if page <= 0 then 1 else page
  }

  function PerPageOrDefault(perPage: int): int {
    if perPage <= 0 then 50 else perPage
  }

  function Offset(page: int, perPage: int): int {
    Wrap(Wrap(page - 1) * perPage)
  }

  function LastPage(total: int, perPage: int): int
    requires perPage > 0
  {
    var n := Quot(Wrap(Wrap(total + perPage) - 1), perPage);
    if n < 1 then 1 else n
  }

  // The page number of the next link, if there is one.
  function NextPage(page: int, perPage: int, total: int): Option<int>
    requires perPage > 0
  {
    if page < LastPage(total, perPage) then Some(Wrap(page + 1)) else None
  }

  // The bounds of a page in a list of `total`: an offset out of range gives the empty page.
  function Bounds(total: int, offset: int, limit: int): (int, int) {
    if offset < 0 || offset >= total then (0, 0)
    else if limit < Wrap(total - offset) then (offset, Wrap(offset + limit))
    else (offset, total)
  }

  // No page number and no page size makes the slice go out of range.
  lemma SliceInRange(total: int, page: int, perPage: int)
    requires 0 <= total < TWO63 && Int64(page) && Int64(perPage)
    ensures var per := PerPageOrDefault(perPage);
            var b := Bounds(total, Offset(PageOrDefault(page), per), per);
            0 <= b.0 <= b.1 <= total && b.1 - b.0 <= per
  {
  }

  function Slice<T>(l: seq<T>, offset: int, limit: int): seq<T>
    requires |l| < TWO63 && Int64(offset) && 0 <= limit < TWO63
  {
    var b := Bounds(|l|, offset, limit);
    l[b.0..b.1]
  }

  function Ceil(total: int, perPage: int): int
    requires perPage > 0
  {
    (total + perPage - 1) / perPage
  }

  function Max(a: int, b: int): int {
    if a < b then b else a
  }

  lemma QuotSmall(a: int, b: int)
    requires -TWO63 <= a < 0 < b
    ensures Quot(a, b) < 1
  {
    assert -a / b >= 0;
  }

  lemma CeilOne(total: int, perPage: int)
    requires 0 <= total <= perPage && perPage > 0
    ensures Max(1, Ceil(total, perPage)) == 1
  {
    var n := total + perPage - 1;
    assert n < 2 * perPage;
    assert n / perPage < 2;
  }

  lemma CeilMore(total: int, perPage: int)
    requires 0 < perPage < total
    ensures Ceil(total, perPage) > 1
  {
    var n := total + perPage - 1;
    assert n >= 2 * perPage;
    assert n / perPage >= 2;
  }

  // The last page is max(1, ceil(total / perPage)) exactly when the sum does not wrap or everything
  // fits on one page.
  lemma LastPageExact(total: int, perPage: int)
    requires 0 <= total < TWO63 && 0 < perPage < TWO63
    ensures LastPage(total, perPage) == Max(1, Ceil(total, perPage))
            <==> total + perPage - 1 < TWO63 || total <= perPage
  {
    var n := total + perPage - 1;
    WrapTwice(total + perPage);
    if n < TWO63 {
      assert Wrap(Wrap(total + perPage) - 1) == n;
    } else {
      assert Wrap(Wrap(total + perPage) - 1) == n - TWO64;
      QuotSmall(n - TWO64, perPage);
      if total <= perPage {
        CeilOne(total, perPage);
      } else {
        CeilMore(total, perPage);
      }
    }
  }

  lemma WrapTwice(x: int)
    requires 0 < x < TWO64
    ensures Wrap(Wrap(x) - 1) == if x - 1 < TWO63 then x - 1 else x - 1 - TWO64
  {
  }

  // So for up to 2^62 users the last page is right for every page size.
  lemma LastPageIsCeil(total: int, perPage: int)
    requires 0 <= total <= TWO62 && 0 < perPage < TWO63
    ensures LastPage(total, perPage) == Max(1, Ceil(total, perPage))
  {
    LastPageExact(total, perPage);
  }

  // ---- following the next links -----------------------------------------------

  lemma VisitedPage(total: int, page: int, perPage: int)
    requires 0 <= total <= TWO62 && 0 < perPage < TWO63 && 1 <= page <= LastPage(total, perPage)
    ensures Offset(page, perPage) == (page - 1) * perPage && (page - 1) * perPage <= TWO62
    ensures page > 1 ==> (page - 1) * perPage < total
    ensures NextPage(page, perPage, total) == if page * perPage < total then Some(page + 1) else None
  {
    LastPageIsCeil(total, perPage);
    var last := Max(1, Ceil(total, perPage));
    BelowCeil(total, perPage, page);
    if page > 1 {
      BelowCeil(total, perPage, page - 1);
      assert (page - 1) * perPage < total;
      assert page - 1 < TWO63 by { Grows(page - 1, perPage); }
    } else {
      assert (page - 1) * perPage == 0;
    }
    if page < last {
      Grows(page, perPage);
    }
  }

  // A page number is below the ceiling exactly when that many full pages do not reach the end.
  lemma BelowCeil(total: int, perPage: int, page: int)
    requires 0 <= total && 0 < perPage && 1 <= page
    ensures page < Max(1, Ceil(total, perPage)) <==> page * perPage < total
  {
    var n := total + perPage - 1;
    var c := n / perPage;
    assert n == c * perPage + n % perPage;
    if page < c {
      assert (page + 1) * perPage <= c * perPage by { Monotone(page + 1, c, perPage); }
    } else {
      assert c * perPage <= page * perPage by { Monotone(c, page, perPage); }
    }
  }

  lemma Monotone(a: int, b: int, k: int)
    requires a <= b && k > 0
    ensures a * k <= b * k
  {
  }

  lemma Grows(page: int, perPage: int)
    requires page >= 0 && perPage >= 1
    ensures page <= page * perPage
  {
  }

  // The pages read from `page` on, in order. Each request sorts its own arrangement of the list.
  function Follow<T>(lists: int -> seq<T>, total: int, page: int, perPage: int): seq<T>
    requires 0 <= total <= TWO62 && 0 < perPage < TWO63 && 1 <= page <= LastPage(total, perPage)
    requires forall p :: |lists(p)| == total
    decreases LastPage(total, perPage) - page
  {
    VisitedPage(total, page, perPage);
    var here := Slice(lists(page), Offset(page, perPage), perPage);
    match NextPage(page, perPage, total)
    case Some(next) => here + Follow(lists, total, next, perPage)
    case None => here
  }

  lemma SliceAt<T>(l: seq<T>, start: int, perPage: int)
    requires 0 <= start <= |l| <= TWO62 && 0 < perPage < TWO63 && (start == |l| ==> start == 0)
    ensures Slice(l, start, perPage) == if start + perPage < |l| then l[start..start + perPage] else l[start..]
  {
    assert Int64(|l| - start);
    assert start + perPage < |l| ==> Int64(start + perPage);
  }

  lemma {:induction false} FollowReadsRest<T>(l: seq<T>, lists: int -> seq<T>, page: int, perPage: int)
    requires |l| <= TWO62 && 0 < perPage < TWO63 && 1 <= page <= LastPage(|l|, perPage)
    requires forall p :: lists(p) == l
    ensures var start := (page - 1) * perPage;
            0 <= start <= |l| && Follow(lists, |l|, page, perPage) == l[start..]
    decreases LastPage(|l|, perPage) - page
  {
    hide Offset, LastPage, Slice, Bounds, Wrap;
    VisitedPage(|l|, page, perPage);
    var start := (page - 1) * perPage;
    NextStart(page, perPage);
    SliceAt(l, start, perPage);
    if start + perPage < |l| {
      assert page + 1 <= LastPage(|l|, perPage);
      FollowReadsRest(l, lists, page + 1, perPage);
      assert l[start..] == l[start..start + perPage] + l[start + perPage..];
    }
  }

  lemma NextStart(page: int, perPage: int)
    ensures page * perPage == (page - 1) * perPage + perPage
    ensures page == 1 ==> (page - 1) * perPage == 0
  {
  }

  // Two requests over the same users with distinct creation times sort to the same list.
  lemma SameArrangement(users: set<User>, scan: seq<User>, scan': seq<User>)
    requires Enumerates(scan, users) && Enumerates(scan', users)
    requires forall a, b | a in users && b in users && a != b :: a.createdAt != b.createdAt
    ensures Sort(USER_LESS, scan) == Sort(USER_LESS, scan')
    ensures Increasing(USER_LESS, Sort(USER_LESS, scan)) && Enumerates(Sort(USER_LESS, scan), users)
  {
    SortedEnumeration(USER_LESS, scan, users);
    SortedEnumeration(USER_LESS, scan', users);
    IncreasingUnique(USER_LESS, Sort(USER_LESS, scan), Sort(USER_LESS, scan'));
  }

  // Following next links from page 1 over an unchanged store reads every user exactly once, in ascending
  // order of creation, whatever order each request happened to scan the map in.
  lemma ReadsEveryUserOnce(users: set<User>, scans: int -> seq<User>, perPage: int)
    requires forall p :: Enumerates(scans(p), users)
    requires forall a, b | a in users && b in users && a != b :: a.createdAt != b.createdAt
    requires |scans(1)| <= TWO62 && 0 < perPage < TWO63
    ensures var lists := (p: int) => Sort(USER_LESS, scans(p));
            && (forall p :: |lists(p)| == |scans(1)|)
            && 1 <= LastPage(|scans(1)|, perPage)
            && var read := Follow(lists, |scans(1)|, 1, perPage);
               Enumerates(read, users) && Increasing(USER_LESS, read)
  {
    var lists := (p: int) => Sort(USER_LESS, scans(p));
    var l := lists(1);
    forall p ensures lists(p) == l {
      SameArrangement(users, scans(1), scans(p));
    }
    SameArrangement(users, scans(1), scans(1));
    FollowReadsRest(l, lists, 1, perPage);
    assert l[0..] == l;
  }
}
