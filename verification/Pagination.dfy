/** Cursor pagination over a list that does not change between pages. */
module Pagination {
  import opened Prelude

  const DEFAULT_PAGE := 20

  datatype Page = Page(items: seq<string>, nextCursor: Option<string>)

  /** findIndex: the first position of `id`, or None. */
  function IndexOf(items: seq<string>, id: string): (i: Option<nat>)
    ensures i.Some? ==> i.value < |items|
  {
    if items == [] then None
    else if items[0] == id then Some(0)
    else
      match IndexOf(items[1..], id)
      case None => None
      case Some(k) => Some(k + 1)
  }

  lemma {:induction false} IndexOfIsFirst(items: seq<string>, id: string)
    ensures IndexOf(items, id).None? <==> id !in items
    ensures match IndexOf(items, id)
            case None => true
            case Some(i) => items[i] == id && id !in items[..i]
  {
    if items != [] && items[0] != id {
      IndexOfIsFirst(items[1..], id);
      match IndexOf(items[1..], id)
      case None =>
      case Some(k) => assert items[..k + 1] == [items[0]] + items[1..][..k];
    }
  }

  /** An item is its id. An absent or empty cursor, or one that is not found, starts at the front. */
  function Start(items: seq<string>, cursor: Option<string>): (start: nat)
    ensures start <= |items|
  {
    if cursor.None? || cursor.value == "" then 0
    else
      match IndexOf(items, cursor.value)
      case None => 0
      case Some(i) => i + 1
  }

  function Paginate(items: seq<string>, limit: Option<nat>, cursor: Option<string>): Page
  {
    var pageSize := if limit.Some? then limit.value else DEFAULT_PAGE;
    var start := Start(items, cursor);
    var end := if start + pageSize <= |items| then start + pageSize else |items|;
    var slice := items[start..end];
    Page(slice, if start + pageSize < |items| && slice != [] then Some(slice[|slice| - 1]) else None)
  }

  /** Following the cursor of a page continues where it stopped exactly when its last id is not empty and is new. */
  lemma NextPageContinues(items: seq<string>, limit: Option<nat>, cursor: Option<string>)
    requires Paginate(items, limit, cursor).nextCursor.Some?
    ensures var page := Paginate(items, limit, cursor);
            var end := Start(items, cursor) + |page.items|;
            Start(items, page.nextCursor) == end <==> items[end - 1] != "" && items[end - 1] !in items[..end - 1]
  {
    var page := Paginate(items, limit, cursor);
    var end := Start(items, cursor) + |page.items|;
    var last := items[end - 1];
    assert page.nextCursor == Some(last);
    assert last in items;
    IndexOfIsFirst(items, last);
    var i := IndexOf(items, last).value;
    if i < end - 1 {
      assert items[..end - 1][i] == last;
    }
    if i == end - 1 {
      assert last !in items[..end - 1];
    }
  }

  ghost predicate DistinctIds(items: seq<string>)
  {
    && (forall i :: 0 <= i < |items| ==> items[i] != "")
    && forall i, j :: 0 <= i < j < |items| ==> items[i] != items[j]
  }

  /** The items of the pages from `cursor` on, reading at most `fuel` pages. */
  function Pages(items: seq<string>, limit: Option<nat>, cursor: Option<string>, fuel: nat): seq<string>
    decreases fuel
  {
    if fuel == 0 then []
    else
      var page := Paginate(items, limit, cursor);
      page.items + if page.nextCursor.None? then [] else Pages(items, limit, page.nextCursor, fuel - 1)
  }

  /** A page is a slice of the list, and the next one, if any, starts at its end. */
  ghost predicate PageStep(items: seq<string>, start: nat, page: Page, next: nat)
  {
    && start + |page.items| <= |items|
    && page.items == items[start..start + |page.items|]
    && (page.nextCursor.None? ==> start + |page.items| == |items|)
    && (page.nextCursor.Some? ==> page.items != [] && next == start + |page.items|)
  }

  lemma PagesStep(items: seq<string>, limit: Option<nat>, cursor: Option<string>)
    requires DistinctIds(items) && (limit.Some? ==> limit.value >= 1)
    ensures var page := Paginate(items, limit, cursor);
            PageStep(items, Start(items, cursor), page, Start(items, page.nextCursor))
  {
    if Paginate(items, limit, cursor).nextCursor.Some? {
      NextPageContinues(items, limit, cursor);
    }
  }

  lemma PageJoins(items: seq<string>, start: nat, page: Page, next: nat, rest: seq<string>)
    requires PageStep(items, start, page, next) && next <= |items|
    requires rest == if page.nextCursor.None? then [] else items[next..]
    ensures page.items + rest == items[start..]
  {
  }

  ghost predicate StepsAlong(items: seq<string>, limit: Option<nat>, cursor: Option<string>)
  {
    var page := Paginate(items, limit, cursor);
    PageStep(items, Start(items, cursor), page, Start(items, page.nextCursor))
  }

  lemma {:induction false} PagesJoin(items: seq<string>, limit: Option<nat>, cursor: Option<string>, fuel: nat)
    requires forall c :: StepsAlong(items, limit, c)
    requires fuel > |items| - Start(items, cursor)
    ensures Pages(items, limit, cursor, fuel) == items[Start(items, cursor)..]
    decreases fuel
  {
    var start, page := Start(items, cursor), Paginate(items, limit, cursor);
    assert StepsAlong(items, limit, cursor);
    if page.nextCursor.None? {
      PageJoins(items, start, page, start, []);
    } else {
      PagesJoin(items, limit, page.nextCursor, fuel - 1);
      PageJoins(items, start, page, start + |page.items|, Pages(items, limit, page.nextCursor, fuel - 1));
    }
  }

  /** Reading page after page ends, and gives every item from the cursor on, once and in order. */
  lemma PagesCoverAll(items: seq<string>, limit: Option<nat>, cursor: Option<string>, fuel: nat)
    requires DistinctIds(items) && (limit.Some? ==> limit.value >= 1)
    requires fuel > |items| - Start(items, cursor)
    ensures Pages(items, limit, cursor, fuel) == items[Start(items, cursor)..]
  {
    forall c ensures StepsAlong(items, limit, c) {
      PagesStep(items, limit, c);
    }
    PagesJoin(items, limit, cursor, fuel);
  }
}
