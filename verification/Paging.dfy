/** Offset paging over a store that only pages by cursor. */
module Paging {
  import opened Prelude
  import opened Decimal

  /** The slice a client asked for. */
  datatype ChildPage = All(start: nat) | Range(start: nat, count: nat)

  datatype Page<K, C> = Page(children: seq<C>, truncated: bool, cursor: Option<K>)

  datatype Children<C> = Children(children: seq<C>, truncated: bool)

  function Min(a: nat, b: nat): nat {
    if a <= b then a else b
  }

  /** The offset and count to read: never none, never more than one preview holds. */
  function DataPageBounds(page: ChildPage, maxItems: nat): (bounds: (nat, nat))
    requires 1 <= maxItems
    ensures bounds.0 == page.start && 1 <= bounds.1 <= maxItems
    ensures page.Range? && 1 <= page.count <= maxItems ==> bounds.1 == page.count
  {
    match page
    case All(start) => (start, maxItems)
    case Range(start, count) => (start, if count < 1 then 1 else Min(count, maxItems))
  }

  function SaturatingAdd(a: nat, b: nat): nat {
    Min(a + b, USIZE_MAX)
  }

  /** The part of the first `end` from `start` on, cut after `limit`. */
  function Upto<C>(all: seq<C>, end: nat, start: nat, limit: nat): (part: seq<C>)
    requires end <= |all|
    ensures |part| <= limit
    ensures |part| == limit <==> start + limit <= end || limit == 0
  {
    all[Min(start, end)..Min(start + limit, end)]
  }

  /** The part of `all` from `start` on, cut after `limit` and at the end. */
  function Window<C>(all: seq<C>, start: nat, limit: nat): seq<C> {
    Upto(all, |all|, start, limit)
  }

  // ----- A fetch that walks one fixed sequence

  ghost function PositionOf<K>(cursor: Option<K>, position: K -> nat): nat {
    if cursor.Some? then position(cursor.value) else 0
  }

  /** A full page from `from`, or the last one; a cursor to its end while there is more. */
  ghost predicate PageAt<K, C>(page: Page<K, C>, all: seq<C>, from: nat, size: nat, position: K -> nat)
    requires from <= |all|
  {
    && page.children == all[from..Min(from + size, |all|)]
    && (page.truncated <==> from + size < |all|)
    && (page.truncated ==> page.cursor.Some? && position(page.cursor.value) == from + size)
  }

  ghost predicate Walks<K(!new), C, E>(
    fetch: (Option<K>, nat) -> Result<Page<K, C>, E>, all: seq<C>, size: nat, position: K -> nat)
  {
    forall cursor: Option<K> :: PositionOf(cursor, position) <= |all| && fetch(cursor, size).Ok? ==>
      PageAt(fetch(cursor, size).value, all, PositionOf(cursor, position), size, position)
  }

  ghost predicate FetchFails<K, C, E>(
    fetch: (Option<K>, nat) -> Result<Page<K, C>, E>, cursor: Option<K>, size: nat, error: E)
  {
    fetch(cursor, size) == Err(error)
  }

  /** What one page leaves of it: the children taken, and whether some were left over. */
  method TakePage<C>(children: seq<C>, page: seq<C>, skipped: nat, start: nat, limit: nat,
                     ghost all: seq<C>, ghost from: nat) returns (taken: seq<C>, more: bool)
    requires start <= USIZE_MAX && skipped == Min(from, USIZE_MAX)
    requires from + |page| <= |all| && page == all[from..from + |page|]
    requires children == Upto(all, from, start, limit)
    ensures taken == Upto(all, from + |page|, start, limit)
    ensures more ==> start + limit < from + |page|
    ensures !more && |page| > 0 ==> from + |page| <= start + limit || from + |page| <= start
  {
    taken, more := children, false;
    for index := 0 to |page|
      invariant taken == Upto(all, from + index, start, limit)
      invariant 0 < index ==> from + index <= start + limit || from + index <= start
    {
      TakeOne(all, start, limit, from + index);
      if SaturatingAdd(skipped, index) < start {
        continue;
      }
      if |taken| == limit {
        more := true;
        FullWindow(all, start, limit, from + index, from + |page|);
        return;
      }
      taken := taken + [page[index]];
    }
  }

  /** What the child at `at` does to the window up to it. */
  lemma TakeOne<C>(all: seq<C>, start: nat, limit: nat, at: nat)
    requires at < |all|
    ensures at < start ==> Upto(all, at + 1, start, limit) == Upto(all, at, start, limit)
    ensures start <= at < start + limit ==> Upto(all, at + 1, start, limit) == Upto(all, at, start, limit) + [all[at]]
  {
  }

  /** A full window is the same however far the sequence is read on. */
  lemma FullWindow<C>(all: seq<C>, start: nat, limit: nat, here: nat, end: nat)
    requires start + limit <= here <= end <= |all|
    ensures Upto(all, end, start, limit) == Upto(all, here, start, limit)
  {
  }

  /** Once the limit or the end is reached, what was taken is the window. */
  lemma Settled<C>(all: seq<C>, start: nat, limit: nat, end: nat, from: nat, more: bool)
    requires from <= end <= |all| && 1 <= limit && from < start + limit
    requires more ==> start + limit < end
    requires !more && from < end ==> end <= start + limit || end <= start
    ensures |Upto(all, end, start, limit)| == limit ==>
      Upto(all, end, start, limit) == Window(all, start, limit) && (more || end < |all| <==> start + limit < |all|)
    ensures |Upto(all, end, start, limit)| != limit && end == |all| ==> |all| < start + limit
  {
  }

  function PageSize(pageLimit: nat): (size: nat)
    ensures 1 <= size && pageLimit <= size
  {
    if pageLimit < 1 then 1 else pageLimit
  }

  /** How far so many full pages reach. */
  function Walked(pages: nat, size: nat): nat {
    if pages == 0 then 0 else Walked(pages - 1, size) + size
  }

  lemma {:induction false} WalkedIsProduct(pages: nat, size: nat)
    ensures Walked(pages, size) == pages * size
  {
    if pages > 0 {
      WalkedIsProduct(pages - 1, size);
    }
  }

  /** How many pages it takes to cover so many entries. */
  function PagesFor(entries: nat, size: nat): nat
    requires 1 <= size
  {
    (entries + size - 1) / size
  }

  lemma {:induction false} WalkedGrows(some: nat, more: nat, size: nat)
    requires some <= more
    ensures Walked(some, size) <= Walked(more, size)
    decreases more
  {
    if some < more {
      WalkedGrows(some, more - 1, size);
    }
  }

  lemma NextMultipleExceeds(n: nat, size: nat)
    requires 1 <= size
    ensures n < (n / size + 1) * size
  {
    assert n == size * (n / size) + n % size;
  }

  /** A page begun before the entries are covered is one of those that cover them. */
  lemma PagesSuffice(pages: nat, size: nat, entries: nat)
    requires 1 <= size && 0 < pages && Walked(pages - 1, size) < entries
    ensures pages <= PagesFor(entries, size)
  {
    var beyond := PagesFor(entries, size) + 1;
    NextMultipleExceeds(entries + size - 1, size);
    WalkedIsProduct(beyond, size);
    if beyond <= pages {
      WalkedGrows(beyond, pages, size);
    }
  }

  /** Reading by offset refines slicing: against any fetch that walks one fixed sequence, the answer
      is the window asked for, marked truncated exactly when more follows it. No page is
      fetched beyond those that cover the window. A read fails only if a fetch does. */
  method DataChildrenAtOffset<K(!new), C, E>(
      start: nat, limit: nat, pageLimit: nat, fetch: (Option<K>, nat) -> Result<Page<K, C>, E>,
      ghost all: seq<C>, ghost position: K -> nat)
    returns (result: Result<Children<C>, E>, ghost fetches: nat)
    requires start <= USIZE_MAX && 1 <= limit
    requires Walks(fetch, all, PageSize(pageLimit), position)
    ensures result.Ok? ==> result.value == Children(Window(all, start, limit), start + limit < |all|)
    ensures result.Err? ==> exists cursor :: FetchFails(fetch, cursor, PageSize(pageLimit), result.error)
    ensures 0 < fetches <= PagesFor(start + limit, PageSize(pageLimit))
  {
    var size := PageSize(pageLimit);
    var skipped, cursor: Option<K>, children := 0, None, [];
    ghost var from := 0;
    fetches := 0;
    while true
      invariant from <= |all| && from == PositionOf(cursor, position) && skipped == Min(from, USIZE_MAX)
      invariant from == Walked(fetches, size) && from < start + limit
      invariant children == Upto(all, from, start, limit)
      decreases |all| - from
    {
      fetches := fetches + 1;
      PagesSuffice(fetches, size, start + limit);
      var fetched := fetch(cursor, size);
      if fetched.Err? {
        assert FetchFails(fetch, cursor, size, fetched.error);
        return Err(fetched.error), fetches;
      }
      var page := fetched.value;
      ghost var end := from + |page.children|;
      var more;
      children, more := TakePage(children, page.children, skipped, start, limit, all, from);
      skipped := SaturatingAdd(skipped, |page.children|);
      Settled(all, start, limit, end, from, more);
      if |children| == limit {
        return Ok(Children(children, more || page.truncated)), fetches;
      }
      if !page.truncated || page.children == [] {
        return Ok(Children(children, false)), fetches;
      }
      if page.cursor.None? {
        return Ok(Children(children, false)), fetches;
      }
      cursor := page.cursor;
      from := end;
    }
  }

  /** The elements from the start on, as many as were asked for or are there. */
  lemma WindowIsTheSlice<C>(all: seq<C>, start: nat, limit: nat)
    ensures var window := Window(all, start, limit);
      && |window| == (if |all| <= start then 0 else if limit <= |all| - start then limit else |all| - start)
      && forall k :: 0 <= k < |window| ==> window[k] == all[start + k]
  {
  }

  /** Consecutive windows are the whole: paging on by the count asked for loses and repeats
      nothing. */
  lemma WindowsTile<C>(all: seq<C>, start: nat, limit: nat)
    ensures Window(all, 0, start) + Window(all, start, limit) == Window(all, 0, start + limit)
  {
  }
}
