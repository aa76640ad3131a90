/** What the four list endpoints share: the `page`/`pageSize` query
    parameters, `skip`/`take` over the ordered matches, `total` from the count
    with the same `where`, and `Math.ceil(total / pageSize)`. The database
    behaviour these files do not determine is a parameter. */
module Listing {
  import opened Wrappers
  import opened Seqs
  import opened Errors

  /** Database behaviour outside this model: `contains(value, q)` is Prisma's
      `{ contains: q }` on a column; `nullsFirst` says where `orderBy: { dueDate:
      'asc' }` puts rows without a due date; the `Thrown` values are what
      `update` and `delete` throw for an unknown id and what `findMany` throws
      for a `where` value outside the column's enumeration. */
  datatype Db = Db(
    contains: (string, string) -> bool,
    nullsFirst: bool,
    updateMissing: Thrown,
    deleteMissing: Thrown,
    badEnumFilter: Thrown)

  /** `Math.ceil(total / size)`. */
  function CeilDiv(total: nat, size: nat): (r: nat)
    requires size >= 1
    ensures r * size >= total
    ensures r == 0 || (r - 1) * size < total
    decreases total
  {
    if total == 0 then 0
    else if total <= size then 1
    else
      var rest := CeilDiv(total - size, size);
      assert (rest + 1) * size == rest * size + size;
      rest + 1
  }

  /** The page parameters as the route reads them: `None` when the parameter is
      absent or empty (`c.req.query('page') || '1'`), else its parsed value. */
  datatype PageQuery = PageQuery(page: Option<int>, pageSize: Option<int>)

  /** The parsed values are taken to be at least 1 (see README). */
  predicate WellFormed(q: PageQuery)
  {
    (q.page.None? || q.page.value >= 1) && (q.pageSize.None? || q.pageSize.value >= 1)
  }

  function OrDefault(v: Option<int>, d: int): int
  {
    if v.Some? then v.value else d
  }

  /** The body `{ message }` of a successful delete. */
  datatype MessageBody = MessageBody(message: string)

  /** The list reply without its entity-specific extras. */
  datatype Page<T> = Page(items: seq<T>, total: nat, page: int, pageSize: int, totalPages: nat)

  /** `findMany({ skip: (page - 1) * pageSize, take: pageSize })` over the ordered
      matches, with `count` over the same matches. */
  function Paginate<T>(ordered: seq<T>, q: PageQuery, defaultSize: nat): (r: Page<T>)
    requires WellFormed(q) && defaultSize >= 1
    ensures r.page == OrDefault(q.page, 1) && r.pageSize == OrDefault(q.pageSize, defaultSize)
    ensures r.total == |ordered|
    ensures |r.items| <= r.pageSize
    ensures r.totalPages * r.pageSize >= r.total
    ensures r.totalPages == 0 || (r.totalPages - 1) * r.pageSize < r.total
    // The items are the window that starts `skip` rows in, in order.
    ensures var skip := (r.page - 1) * r.pageSize;
      && skip >= 0
      && (forall i :: 0 <= i < |r.items| ==> skip + i < |ordered| && r.items[i] == ordered[skip + i])
      && (skip + r.pageSize <= |ordered| ==> |r.items| == r.pageSize)
      && (skip <= |ordered| ==> |r.items| == Min(r.pageSize, |ordered| - skip))
      && (skip >= |ordered| ==> r.items == [])
  {
    var page := OrDefault(q.page, 1);
    var size := OrDefault(q.pageSize, defaultSize);
    var skip := (page - 1) * size;
    assert skip >= 0 by { NonNegativeProduct(page - 1, size); }
    var lo := Min(skip, |ordered|);
    var hi := Min(skip + size, |ordered|);
    Page(ordered[lo..hi], |ordered|, page, size, CeilDiv(|ordered|, size))
  }

  lemma NonNegativeProduct(a: int, b: int)
    requires a >= 0 && b >= 0
    ensures a * b >= 0
  {
  }

  /** Sort the matching rows by `key` and take the requested page. */
  function ListPage<T>(matching: seq<T>, key: T -> seq<int>, q: PageQuery, defaultSize: nat): (r: Page<T>)
    requires WellFormed(q) && defaultSize >= 1
    ensures r == Paginate(SortBy(matching, key), q, defaultSize)
    ensures r.total == |matching|
    ensures |r.items| <= r.pageSize
    ensures SortedBy(r.items, key)
    ensures forall i :: 0 <= i < |r.items| ==> r.items[i] in matching
  {
    SortedPage(matching, key, q, defaultSize);
    Paginate(SortBy(matching, key), q, defaultSize)
  }

  lemma SortedPage<T>(matching: seq<T>, key: T -> seq<int>, q: PageQuery, defaultSize: nat)
    requires WellFormed(q) && defaultSize >= 1
    ensures |SortBy(matching, key)| == |matching|
    ensures var r := Paginate(SortBy(matching, key), q, defaultSize);
      SortedBy(r.items, key) && forall i :: 0 <= i < |r.items| ==> r.items[i] in matching
  {
    SortSorted(matching, key);
    SortPermutes(matching, key);
    PageOfSorted(SortBy(matching, key), matching, key, q, defaultSize);
  }

  /** A page of any sorted permutation of `matching` is sorted and holds only matching rows. */
  lemma PageOfSorted<T>(ordered: seq<T>, matching: seq<T>, key: T -> seq<int>, q: PageQuery, defaultSize: nat)
    requires WellFormed(q) && defaultSize >= 1
    requires SortedBy(ordered, key) && multiset(ordered) == multiset(matching)
    ensures |ordered| == |matching|
    ensures var r := Paginate(ordered, q, defaultSize);
      SortedBy(r.items, key) && forall i :: 0 <= i < |r.items| ==> r.items[i] in matching
  {
    SameLength(ordered, matching);
    var r := Paginate(ordered, q, defaultSize);
    var skip := (r.page - 1) * r.pageSize;
    WindowSorted(ordered, r.items, skip, key);
    WindowWithin(ordered, r.items, skip, matching);
  }

  /** A permutation has the length of the sequence it permutes. */
  lemma SameLength<T>(a: seq<T>, b: seq<T>)
    requires multiset(a) == multiset(b)
    ensures |a| == |b|
  {
    assert |a| == |multiset(a)| == |multiset(b)| == |b|;
  }

  /** A window of a permutation of `m` holds only elements of `m`. */
  lemma WindowWithin<T>(s: seq<T>, w: seq<T>, start: int, m: seq<T>)
    requires multiset(s) == multiset(m)
    requires start >= 0 && forall i :: 0 <= i < |w| ==> start + i < |s| && w[i] == s[start + i]
    ensures forall i :: 0 <= i < |w| ==> w[i] in m
  {
    forall i | 0 <= i < |w| ensures w[i] in m {
      assert start + i < |s| && w[i] == s[start + i];
      assert s[start + i] in multiset(s);
      assert w[i] in multiset(m);
    }
  }

  /** A window of a sorted sequence is sorted. */
  lemma {:induction false} WindowSorted<T>(s: seq<T>, w: seq<T>, start: int, key: T -> seq<int>)
    requires SortedBy(s, key)
    requires start >= 0 && forall i :: 0 <= i < |w| ==> start + i < |s| && w[i] == s[start + i]
    ensures SortedBy(w, key)
  {
    forall i, j | 0 <= i < j < |w| ensures KeyLe(key(w[i]), key(w[j])) {
      var a, b := start + i, start + j;
      assert a < |s| && w[i] == s[a];
      assert b < |s| && w[j] == s[b];
      assert KeyLe(key(s[a]), key(s[b]));
    }
  }
}
