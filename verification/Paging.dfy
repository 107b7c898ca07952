/**
 Following a pinned lineage page by page. The store may change between any two pages; the pages
 still add up to exactly the pinned lineage.
 */
module Paging {
  import opened Basics
  import opened FactTree

  /** One page request: the limit asked for and the store as it is at that moment. */
  datatype PageRead = PageRead(st: Store, limit: int)

  /** From one page to the next the store went through appends and checkouts, which never lose an entry. */
  ghost predicate Observable(pages: seq<PageRead>) {
    pages != [] ==>
      && ValidStore(pages[0].st) && pages[0].limit >= 1
      && (|pages| > 1 ==> Extends(pages[0].st.entries, pages[1].st.entries))
      && Observable(pages[1..])
  }

  /** The reader: start at `cursor`, keep the leaf of the page before, go on while there is a next cursor. */
  ghost function Follow(pages: seq<PageRead>, leaf: Leaf, cursor: int): (entries: Option<seq<FactEntry>>)
    requires Observable(pages)
  {
    if pages == [] then None
    else
      var page := ReadPage(pages[0].st, cursor, pages[0].limit, leaf);
      if page.Raise? then None
      else if page.value.nextAfter.None? then Some(page.value.entries)
      else
        var rest := Follow(pages[1..], page.value.leaf, page.value.nextAfter.value);
        if rest.None? then None else Some(page.value.entries + rest.value)
  }

  ghost predicate Increasing(path: seq<FactEntry>) {
    forall i, j | 0 <= i < j < |path| :: path[i].sequence < path[j].sequence
  }

  /** The cursor that stands after `n` entries of a path. */
  function CursorAt(path: seq<FactEntry>, n: nat): int
    requires n <= |path|
  {
    if n == 0 then 0 else path[n - 1].sequence
  }

  lemma {:induction false} AfterCursor(path: seq<FactEntry>, n: nat)
    requires Increasing(path) && n <= |path|
    requires forall i | 0 <= i < |path| :: path[i].sequence >= 1
    ensures After(path, CursorAt(path, n)) == path[n..]
    decreases |path|
  {
    if path != [] {
      var c := CursorAt(path, n);
      if n == |path| {
        AfterNothing(path, c);
      } else {
        assert CursorAt(Front(path), n) == c;
        AfterCursor(Front(path), n);
        assert path[n..] == Front(path)[n..] + [Last(path)];
      }
    }
  }

  lemma {:induction false} AfterNothing(path: seq<FactEntry>, c: int)
    requires forall i | 0 <= i < |path| :: path[i].sequence <= c
    ensures After(path, c) == []
  {
    if path != [] {
      AfterNothing(Front(path), c);
    }
  }

  ghost predicate Positive(path: seq<FactEntry>) {
    forall i | 0 <= i < |path| :: path[i].sequence >= 1
  }

  lemma LineageIncreasing(st: Store, leaf: Leaf)
    requires ValidStore(st) && Known(st.entries, leaf)
    ensures Increasing(Lineage(st.entries, leaf)) && Positive(Lineage(st.entries, leaf))
  {
    LineageOrdered(st.entries, leaf);
  }

  /** One page taken after `n` entries holds the next ones, and its cursor stands right after them. */
  ghost predicate IsPageAt(page: FactPage, path: seq<FactEntry>, leaf: Leaf, limit: int, n: nat)
    requires n <= |path| && limit >= 1
  {
    && page.leaf == leaf
    && if |path| - n > limit
       then page.entries == path[n..n + limit] && page.nextAfter == Some(CursorAt(path, n + limit))
       else page.entries == path[n..] && page.nextAfter.None?
  }

  lemma PageAt(st: Store, leaf: Leaf, limit: int, n: nat)
    requires ValidStore(st) && limit >= 1 && Known(st.entries, leaf)
    requires leaf.Root? ==> st.leaf.Root?
    requires n <= |Lineage(st.entries, leaf)|
    ensures var page := ReadPage(st, CursorAt(Lineage(st.entries, leaf), n), limit, leaf);
            page.Ok? && IsPageAt(page.value, Lineage(st.entries, leaf), leaf, limit, n)
  {
    var path := Lineage(st.entries, leaf);
    LineageIncreasing(st, leaf);
    var cursor := CursorAt(path, n);
    assert cursor >= 0 && (cursor != 0 ==> OnPath(path, cursor));
    AfterCursor(path, n);
    SliceOfRest(path, limit, n);
  }

  lemma SliceOfRest(path: seq<FactEntry>, limit: int, n: nat)
    requires n <= |path| && limit >= 1
    ensures PageOf(path[n..], limit) == if |path| - n > limit then path[n..n + limit] else path[n..]
    ensures NextCursor(path[n..], limit) == if |path| - n > limit then Some(CursorAt(path, n + limit)) else None
  {
  }

  lemma FollowOne(pages: seq<PageRead>, leaf: Leaf, cursor: int, page: FactPage, rest: seq<FactEntry>)
    requires Observable(pages) && pages != [] && ReadPage(pages[0].st, cursor, pages[0].limit, leaf) == Ok(page)
    requires page.nextAfter.Some? ==> Follow(pages[1..], page.leaf, page.nextAfter.value) == Some(rest)
    ensures Follow(pages, leaf, cursor) == Some(if page.nextAfter.None? then page.entries else page.entries + rest)
  {
  }

  lemma ObservableRest(pages: seq<PageRead>, leaf: Leaf, path: seq<FactEntry>)
    requires Observable(pages) && |pages| > 1 && Known(pages[0].st.entries, leaf) && leaf.At?
    requires path == Lineage(pages[0].st.entries, leaf)
    ensures Observable(pages[1..]) && Known(pages[1..][0].st.entries, leaf)
    ensures path == Lineage(pages[1..][0].st.entries, leaf)
  {
    LineageStable(pages[0].st.entries, pages[1].st.entries, leaf);
  }

  lemma FollowLast(pages: seq<PageRead>, leaf: Leaf, path: seq<FactEntry>, n: nat)
    requires Observable(pages) && pages != [] && Known(pages[0].st.entries, leaf)
    requires leaf.Root? ==> pages[0].st.leaf.Root?
    requires path == Lineage(pages[0].st.entries, leaf) && n <= |path| <= n + pages[0].limit
    ensures Follow(pages, leaf, CursorAt(path, n)) == Some(path[n..])
  {
    PageAt(pages[0].st, leaf, pages[0].limit, n);
    FollowOne(pages, leaf, CursorAt(path, n), ReadPage(pages[0].st, CursorAt(path, n), pages[0].limit, leaf).value, []);
  }

  lemma FollowMore(pages: seq<PageRead>, leaf: Leaf, path: seq<FactEntry>, n: nat, end: nat)
    requires Observable(pages) && pages != [] && Known(pages[0].st.entries, leaf)
    requires leaf.Root? ==> pages[0].st.leaf.Root?
    requires path == Lineage(pages[0].st.entries, leaf) && end == n + pages[0].limit < |path|
    requires Follow(pages[1..], leaf, CursorAt(path, end)) == Some(path[end..])
    ensures Follow(pages, leaf, CursorAt(path, n)) == Some(path[n..end] + path[end..])
  {
    PageAt(pages[0].st, leaf, pages[0].limit, n);
    FollowOne(pages, leaf, CursorAt(path, n), ReadPage(pages[0].st, CursorAt(path, n), pages[0].limit, leaf).value, path[end..]);
  }

  lemma Joined(path: seq<FactEntry>, n: nat, end: nat)
    requires n <= end <= |path|
    ensures path[n..end] + path[end..] == path[n..]
  {
  }

  lemma {:induction false} FollowFrom(pages: seq<PageRead>, leaf: Leaf, path: seq<FactEntry>, n: nat)
    requires Observable(pages) && pages != [] && Known(pages[0].st.entries, leaf)
    requires leaf.Root? ==> pages[0].st.leaf.Root?
    requires path == Lineage(pages[0].st.entries, leaf) && n <= |path| && |pages| >= |path| - n
    ensures Follow(pages, leaf, CursorAt(path, n)) == Some(path[n..])
    decreases |pages|
  {
    var end := n + pages[0].limit;
    if end < |path| {
      ObservableRest(pages, leaf, path);
      FollowFrom(pages[1..], leaf, path, end);
      FollowMore(pages, leaf, path, n, end);
      Joined(path, n, end);
    } else {
      FollowLast(pages, leaf, path, n);
    }
  }

  /**
   Reading from the start with any positive limits ends after at most as many pages as the lineage
   has entries, and returns the lineage that was current (or asked for) at the first read: no gap, no
   repeat, nothing that was appended or checked out in between.
   */
  lemma PagesAreTheLineage(pages: seq<PageRead>, asked: Leaf)
    requires Observable(pages) && pages != [] && Known(pages[0].st.entries, asked)
    ensures var pinned := if asked.Root? then pages[0].st.leaf else asked;
            var path := Lineage(pages[0].st.entries, pinned);
            |pages| >= |path| ==> Follow(pages, asked, 0) == Some(path)
  {
    var pinned := if asked.Root? then pages[0].st.leaf else asked;
    var path := Lineage(pages[0].st.entries, pinned);
    if |pages| >= |path| {
      FollowFrom(pages, pinned, path, 0);
      assert path[0..] == path;
      assert ReadPage(pages[0].st, 0, pages[0].limit, asked) == ReadPage(pages[0].st, 0, pages[0].limit, pinned);
    }
  }

  ghost predicate StandsOn(path: seq<FactEntry>, cursor: int) {
    exists n: nat | 0 < n <= |path| :: CursorAt(path, n) == cursor
  }

  lemma StandsExactly(path: seq<FactEntry>, cursor: int)
    ensures OnPath(path, cursor) <==> StandsOn(path, cursor)
  {
    if OnPath(path, cursor) {
      var i :| 0 <= i < |path| && path[i].sequence == cursor;
      assert CursorAt(path, i + 1) == cursor;
    }
    if StandsOn(path, cursor) {
      var n: nat :| 0 < n <= |path| && CursorAt(path, n) == cursor;
      assert path[n - 1].sequence == cursor;
    }
  }

  /** A page is read exactly from a known leaf, with a positive limit, from the start or from a cursor on its lineage. */
  lemma CursorMustBelong(st: Store, leaf: Leaf, limit: int, cursor: int)
    requires ValidStore(st)
    ensures var from := if leaf.Root? then st.leaf else leaf;
            ReadPage(st, cursor, limit, leaf).Ok? <==>
              && limit >= 1 && Known(st.entries, from)
              && (cursor == 0 || (cursor > 0 && StandsOn(Lineage(st.entries, from), cursor)))
  {
    var from := if leaf.Root? then st.leaf else leaf;
    if Known(st.entries, from) {
      StandsExactly(Lineage(st.entries, from), cursor);
    }
  }
}
