/** Paged history download from the archive client. */
module Paging {
  import opened Core

  datatype Row = Row(time: int, content: string)
  datatype Page = Page(from: int, rows: seq<Row>)
  datatype PagingError = PageOrderInvalid | NoProgress

  /** The rows with `from <= time < end`, in source order. */
  function Between(rows: seq<Row>, from: int, end: int): seq<Row> {
    if rows == [] then []
    else (if from <= rows[0].time < end then [rows[0]] else []) + Between(rows[1..], from, end)
  }

  lemma {:induction false} BetweenAt(rows: seq<Row>, from: int, end: int, i: nat)
    requires i < |Between(rows, from, end)|
    ensures from <= Between(rows, from, end)[i].time < end
  {
    if from <= rows[0].time < end {
      if i > 0 { BetweenAt(rows[1..], from, end, i - 1); }
    } else {
      BetweenAt(rows[1..], from, end, i);
    }
  }

  function Take(rows: seq<Row>, limit: nat): seq<Row> {
    if |rows| <= limit then rows else rows[..limit]
  }

  /** One archive query: both ends included, at most `limit` rows. */
  function Query(rows: seq<Row>, from: int, last: int, limit: nat): seq<Row> {
    Take(Between(rows, from, last + 1), limit)
  }

  /** Sorted by time and without two rows of the same time. */
  predicate Ordered(rows: seq<Row>) {
    forall i, j :: 0 <= i < j < |rows| ==> rows[i].time < rows[j].time
  }

  function Concat(pages: seq<Page>): seq<Row> {
    if pages == [] then [] else Concat(pages[..|pages| - 1]) + pages[|pages| - 1].rows
  }

  // ----- what the loop collects -----

  /** The rows from a given time on that a source holds, before they are cut to a page. */
  type Source = int -> seq<Row>

  ghost function Archive(rows: seq<Row>, end: int): Source { from => Between(rows, from, end) }

  ghost predicate Later(rows: seq<Row>, from: int) { forall i :: 0 <= i < |rows| ==> rows[i].time >= from }
  ghost predicate Earlier(rows: seq<Row>, to: int) { forall i :: 0 <= i < |rows| ==> rows[i].time < to }

  /** A source holds nothing outside its window, and a later start only cuts off earlier rows. */
  ghost predicate Honest(source: Source, end: int) {
    && (forall c :: Later(source(c), c) && Earlier(source(c), end))
    && (forall c, k, n: nat :: Cut(source, c, k, n) ==> source(k) == source(c)[n..])
  }

  ghost predicate Cut(source: Source, c: int, k: int, n: nat) {
    c <= k && n <= |source(c)| && Earlier(source(c)[..n], k) && Later(source(c)[n..], k)
  }

  ghost function Paged(source: Source, cursor: int, end: int, size: nat, step: nat): Option<seq<Row>>
    requires step > 0 && Honest(source, end)
    decreases end - cursor
  {
    if cursor >= end then Some([])
    else
      var page := Take(source(cursor), size);
      if page == [] then Some([])
      else if !Ordered(page) then None
      else if |page| < size then Some(page)
      else
        assert Later(source(cursor), cursor);
        assert page[|page| - 1] == source(cursor)[|page| - 1];
        Joined(page, Paged(source, page[|page| - 1].time + step, end, size, step))
  }

  ghost function Joined(done: seq<Row>, rest: Option<seq<Row>>): Option<seq<Row>> {
    if rest.None? then None else Some(done + rest.value)
  }

  lemma {:induction false} JoinedTwice(a: seq<Row>, b: seq<Row>, rest: Option<seq<Row>>)
    ensures Joined([], rest) == rest
    ensures Joined(a, Joined(b, rest)) == Joined(a + b, rest)
  {
    if rest.Some? {
      assert [] + rest.value == rest.value;
      assert a + (b + rest.value) == (a + b) + rest.value;
    }
  }

  /** Rows rise by at least one within a page and by at least the cursor's step from one page to the next. */
  ghost predicate Spaced(rows: seq<Row>, size: nat, step: nat)
    requires size > 0
  {
    forall i :: 0 < i < |rows| ==> Rises(rows, i, size, step)
  }

  predicate Rises(rows: seq<Row>, i: nat, size: nat, step: nat)
    requires 0 < i < |rows| && size > 0
  {
    rows[i].time >= rows[i - 1].time + Gap(i, size, step)
  }

  predicate Multiple(i: nat, size: nat)
    requires size > 0
  {
    if i < size then i == 0 else Multiple(i - size, size)
  }

  function Gap(i: nat, size: nat, step: nat): nat
    requires size > 0
  {
    if Multiple(i, size) then step else 1
  }

  lemma {:induction false} Rising(rows: seq<Row>, size: nat, step: nat, i: nat, j: nat)
    requires size > 0 && step > 0 && Spaced(rows, size, step) && i < j < |rows|
    ensures rows[i].time < rows[j].time
    decreases j
  {
    assert Rises(rows, j, size, step);
    if i < j - 1 { Rising(rows, size, step, i, j - 1); }
  }

  lemma {:induction false} SpacedOrdered(rows: seq<Row>, size: nat, step: nat)
    requires size > 0 && step > 0 && Spaced(rows, size, step)
    ensures Ordered(rows)
  {
    forall i, j | 0 <= i < j < |rows| ensures rows[i].time < rows[j].time { Rising(rows, size, step, i, j); }
  }

  lemma {:induction false} BetweenCons(x: Row, rows: seq<Row>, from: int, end: int)
    ensures Between([x] + rows, from, end)
            == (if from <= x.time < end then [x] else []) + Between(rows, from, end)
  {
    assert ([x] + rows)[1..] == rows;
  }

  lemma {:induction false} NarrowBetween(rows: seq<Row>, from: int, later: int, end: int)
    requires from <= later
    ensures Between(Between(rows, from, end), later, end) == Between(rows, later, end)
  {
    if rows != [] {
      var rest := Between(rows[1..], from, end);
      NarrowBetween(rows[1..], from, later, end);
      if from <= rows[0].time < end {
        assert Between(rows, from, end) == [rows[0]] + rest;
        BetweenCons(rows[0], rest, later, end);
      } else {
        assert Between(rows, from, end) == rest;
      }
    }
  }

  lemma {:induction false} BetweenSuffix(rows: seq<Row>, n: nat, from: int, end: int)
    requires n <= |rows|
    requires forall i :: 0 <= i < n ==> rows[i].time < from
    requires forall i :: n <= i < |rows| ==> from <= rows[i].time < end
    ensures Between(rows, from, end) == rows[n..]
  {
    if rows != [] {
      BetweenSuffix(rows[1..], if n == 0 then 0 else n - 1, from, end);
      if n == 0 { assert rows == [rows[0]] + rows[1..]; }
    }
  }

  lemma {:induction false} SpacedSplit(rows: seq<Row>, size: nat, step: nat)
    requires 0 < size <= |rows| && Spaced(rows, size, step)
    ensures Spaced(rows[..size], size, step) && Spaced(rows[size..], size, step)
    ensures size < |rows| ==> rows[size].time >= rows[size - 1].time + step
  {
    var head, tail := rows[..size], rows[size..];
    if size < |rows| { assert Rises(rows, size, size, step) && Multiple(size, size); }
    forall i | 0 < i < |head| ensures Rises(head, i, size, step) { assert Rises(rows, i, size, step); }
    forall i | 0 < i < |tail| ensures Rises(tail, i, size, step) {
      assert Rises(rows, size + i, size, step);
    }
  }

  lemma {:induction false} SpacedJoin(rows: seq<Row>, size: nat, step: nat)
    requires 0 < size <= |rows| && Spaced(rows[..size], size, step) && Spaced(rows[size..], size, step)
    requires size < |rows| ==> rows[size].time >= rows[size - 1].time + step
    ensures Spaced(rows, size, step)
  {
    var head, tail := rows[..size], rows[size..];
    forall i | 0 < i < |rows| ensures Rises(rows, i, size, step) {
      if i < size {
        assert Rises(head, i, size, step);
      } else if i == size {
        assert Multiple(size, size);
      } else {
        var j := i - size;
        assert Rises(tail, j, size, step);
        assert tail[j] == rows[i] && tail[j - 1] == rows[i - 1];
      }
    }
  }

  lemma {:induction false} OrderedPage(rows: seq<Row>, size: nat, step: nat)
    requires 0 < size && |rows| <= size && step > 0
    ensures Ordered(rows) <==> Spaced(rows, size, step)
  {
    if Spaced(rows, size, step) {
      SpacedOrdered(rows, size, step);
    } else {
      var i :| 0 < i < |rows| && !Rises(rows, i, size, step);
      assert Gap(i, size, step) == 1 && rows[i].time <= rows[i - 1].time;
    }
  }

  lemma {:induction false} TailKeepsStep(found: seq<Row>, size: nat, step: nat)
    requires 0 < size <= |found| && step > 0 && Spaced(found, size, step)
    ensures Later(found[size..], found[size - 1].time + step)
  {
    SpacedSplit(found, size, step);
    forall i | 0 <= i < |found[size..]| ensures found[size..][i].time >= found[size - 1].time + step {
      if i > 0 { Rising(found, size, step, size, size + i); }
    }
  }

  lemma {:induction false} PagedLater(source: Source, cursor: int, end: int, size: nat, step: nat)
    requires step > 0 && Honest(source, end) && Paged(source, cursor, end, size, step).Some?
    ensures Later(Paged(source, cursor, end, size, step).value, cursor)
    decreases end - cursor
  {
    var page := Take(source(cursor), size);
    assert Later(source(cursor), cursor);
    if cursor < end && page != [] && |page| >= size {
      PagedLater(source, page[|page| - 1].time + step, end, size, step);
    }
  }

  /** A page that is not full is the last one. */
  lemma {:induction false} ShortPage(source: Source, cursor: int, end: int, size: nat, step: nat)
    requires step > 0 && Honest(source, end) && |source(cursor)| < size
    ensures Paged(source, cursor, end, size, step) == if Ordered(source(cursor)) then Some(source(cursor)) else None
  {
    assert Later(source(cursor), cursor) && Earlier(source(cursor), end);
    if source(cursor) != [] { assert cursor <= source(cursor)[0].time < end; }
  }

  /** After a full page the loop goes on from its last row. */
  lemma {:induction false} FullPage(source: Source, cursor: int, end: int, size: nat, step: nat)
    requires step > 0 && Honest(source, end) && 0 < size <= |source(cursor)|
    ensures var page, next := source(cursor)[..size], source(cursor)[size - 1].time + step;
            && cursor < end && cursor < next
            && Paged(source, cursor, end, size, step)
               == if Ordered(page) then Joined(page, Paged(source, next, end, size, step)) else None
  {
    assert Later(source(cursor), cursor) && Earlier(source(cursor), end);
    assert source(cursor)[0].time >= cursor;
    assert Take(source(cursor), size) == source(cursor)[..size];
  }

  /** After a full ordered page the source holds exactly the rows after it, if they keep the step. */
  lemma {:induction false} NextPage(source: Source, cursor: int, end: int, size: nat, step: nat)
    requires step > 0 && Honest(source, end) && 0 < size <= |source(cursor)| && Ordered(source(cursor)[..size])
    requires Later(source(cursor)[size..], source(cursor)[size - 1].time + step)
    ensures source(source(cursor)[size - 1].time + step) == source(cursor)[size..]
  {
    var found := source(cursor);
    var next := found[size - 1].time + step;
    assert Later(found, cursor) && found[size - 1].time >= cursor;
    forall i | 0 <= i < size ensures found[..size][i].time < next {
      assert found[..size][size - 1] == found[size - 1];
    }
    assert Cut(source, cursor, next, size);
  }

  lemma {:induction false} NextSpaced(source: Source, cursor: int, end: int, size: nat, step: nat)
    requires step > 0 && Honest(source, end) && 0 < size <= |source(cursor)| && Spaced(source(cursor), size, step)
    ensures var found, next := source(cursor), source(cursor)[size - 1].time + step;
            && cursor < next && cursor < end && source(next) == found[size..] && Spaced(source(next), size, step)
            && Paged(source, cursor, end, size, step) == Joined(found[..size], Paged(source, next, end, size, step))
  {
    var found := source(cursor);
    FullPage(source, cursor, end, size, step);
    SpacedSplit(found, size, step);
    OrderedPage(found[..size], size, step);
    TailKeepsStep(found, size, step);
    NextPage(source, cursor, end, size, step);
  }

  lemma {:induction false} Halves(found: seq<Row>, size: nat, rest: Option<seq<Row>>)
    requires size <= |found| && rest == Some(found[size..])
    ensures Joined(found[..size], rest) == Some(found)
  {
    assert found[..size] + found[size..] == found;
  }

  lemma {:induction false} SpacedPaged(source: Source, cursor: int, end: int, size: nat, step: nat)
    requires size > 0 && step > 0 && Honest(source, end) && Spaced(source(cursor), size, step)
    ensures Paged(source, cursor, end, size, step) == Some(source(cursor))
    decreases end - cursor
  {
    if |source(cursor)| < size {
      ShortPage(source, cursor, end, size, step);
      OrderedPage(source(cursor), size, step);
    } else {
      NextSpaced(source, cursor, end, size, step);
      var next := source(cursor)[size - 1].time + step;
      SpacedPaged(source, next, end, size, step);
      Halves(source(cursor), size, Paged(source, next, end, size, step));
    }
  }

  lemma {:induction false} PagedSpaced(source: Source, cursor: int, end: int, size: nat, step: nat)
    requires size > 0 && step > 0 && Honest(source, end)
    requires Paged(source, cursor, end, size, step) == Some(source(cursor))
    ensures Spaced(source(cursor), size, step)
    decreases end - cursor
  {
    var found := source(cursor);
    if |found| < size {
      ShortPage(source, cursor, end, size, step);
      OrderedPage(found, size, step);
    } else {
      FullPage(source, cursor, end, size, step);
      OrderedPage(found[..size], size, step);
      var next := found[size - 1].time + step;
      var rest := Paged(source, next, end, size, step).value;
      assert (found[..size] + rest)[size..] == rest;
      PagedLater(source, next, end, size, step);
      NextPage(source, cursor, end, size, step);
      PagedSpaced(source, next, end, size, step);
      if size < |found| { assert found[size] == rest[0]; }
      SpacedJoin(found, size, step);
    }
  }

  /** The archive is honest, whatever rows it holds. */
  lemma {:induction false} ArchiveHonest(rows: seq<Row>, end: int)
    ensures Honest(Archive(rows, end), end)
  {
    var source := Archive(rows, end);
    forall c ensures Later(source(c), c) && Earlier(source(c), end) {
      forall i | 0 <= i < |source(c)| ensures c <= source(c)[i].time < end { BetweenAt(rows, c, end, i); }
    }
    forall c, k, n: nat | Cut(source, c, k, n) ensures source(k) == source(c)[n..] {
      var found := source(c);
      NarrowBetween(rows, c, k, end);
      forall i | 0 <= i < n ensures found[i].time < k { assert found[..n][i] == found[i]; }
      forall i | n <= i < |found| ensures k <= found[i].time < end {
        assert found[n..][i - n] == found[i];
        BetweenAt(rows, c, end, i);
      }
      BetweenSuffix(found, n, k, end);
    }
  }

  /** Paging yields exactly the unpaged selection if and only if the selected rows rise within every page and keep the
      cursor's step across every page boundary. */
  lemma {:induction false} PagingExact(rows: seq<Row>, start: int, end: int, size: nat, step: nat)
    requires size > 0 && step > 0
    ensures Honest(Archive(rows, end), end)
    ensures Paged(Archive(rows, end), start, end, size, step) == Some(Between(rows, start, end))
            <==> Spaced(Between(rows, start, end), size, step)
  {
    ArchiveHonest(rows, end);
    if Spaced(Between(rows, start, end), size, step) {
      SpacedPaged(Archive(rows, end), start, end, size, step);
    } else if Paged(Archive(rows, end), start, end, size, step) == Some(Between(rows, start, end)) {
      PagedSpaced(Archive(rows, end), start, end, size, step);
    }
  }

  /** Whatever is paged rises in time and belongs to the source. */
  lemma {:induction false} PagedSorted(source: Source, cursor: int, end: int, size: nat, step: nat)
    requires size > 0 && step > 0 && Honest(source, end) && Paged(source, cursor, end, size, step).Some?
    ensures var paged := Paged(source, cursor, end, size, step).value;
            Ordered(paged) && Later(paged, cursor) && Earlier(paged, end)
    decreases end - cursor
  {
    PagedLater(source, cursor, end, size, step);
    if |source(cursor)| < size {
      ShortPage(source, cursor, end, size, step);
      assert Earlier(source(cursor), end);
    } else {
      FullPage(source, cursor, end, size, step);
      var page, next := source(cursor)[..size], source(cursor)[size - 1].time + step;
      PagedSorted(source, next, end, size, step);
      PagedLater(source, next, end, size, step);
      SortedJoin(page, Paged(source, next, end, size, step).value, source(cursor)[size - 1].time);
      assert Earlier(source(cursor), end);
    }
  }

  lemma {:induction false} SortedJoin(page: seq<Row>, rest: seq<Row>, last: int)
    requires Ordered(page) && Ordered(rest) && page != [] && page[|page| - 1].time == last && Later(rest, last + 1)
    ensures Ordered(page + rest)
  {
  }

  /** A source whose rows rise is never refused. */
  lemma {:induction false} SortedAccepted(source: Source, cursor: int, end: int, size: nat, step: nat)
    requires size > 0 && step > 0 && Honest(source, end) && forall c :: Ordered(source(c))
    ensures Paged(source, cursor, end, size, step).Some?
    decreases end - cursor
  {
    if |source(cursor)| < size {
      ShortPage(source, cursor, end, size, step);
    } else {
      FullPage(source, cursor, end, size, step);
      SortedAccepted(source, source(cursor)[size - 1].time + step, end, size, step);
    }
  }

  lemma {:induction false} BetweenOrdered(rows: seq<Row>, from: int, end: int)
    requires Ordered(rows)
    ensures Ordered(Between(rows, from, end))
    ensures forall x | x in Between(rows, from, end) :: x in rows
  {
    if rows != [] {
      BetweenOrdered(rows[1..], from, end);
      forall x | x in Between(rows[1..], from, end) ensures x in rows && rows[0].time < x.time {
        var i :| 0 <= i < |rows[1..]| && rows[1..][i] == x;
        assert rows[i + 1] == x;
      }
    }
  }

  /** An archive in time order is always paged, in time order. */
  lemma {:induction false} OrderedArchive(rows: seq<Row>, start: int, end: int, size: nat, step: nat)
    requires size > 0 && step > 0 && Ordered(rows)
    ensures Honest(Archive(rows, end), end)
    ensures var paged := Paged(Archive(rows, end), start, end, size, step); paged.Some? && Ordered(paged.value)
  {
    ArchiveHonest(rows, end);
    forall c ensures Ordered(Archive(rows, end)(c)) { BetweenOrdered(rows, c, end); }
    SortedAccepted(Archive(rows, end), start, end, size, step);
    PagedSorted(Archive(rows, end), start, end, size, step);
  }

  ghost predicate Apart(rows: seq<Row>, step: nat) {
    forall i, j :: 0 <= i < j < |rows| ==> rows[j].time >= rows[i].time + step
  }

  /** Rows at least a step apart are always paged exactly, whatever the page size. */
  lemma {:induction false} ApartPaged(rows: seq<Row>, start: int, end: int, size: nat, step: nat)
    requires size > 0 && step > 0 && Apart(Between(rows, start, end), step)
    ensures Honest(Archive(rows, end), end)
    ensures Paged(Archive(rows, end), start, end, size, step) == Some(Between(rows, start, end))
  {
    ArchiveHonest(rows, end);
    var found := Between(rows, start, end);
    forall i | 0 < i < |found| ensures Rises(found, i, size, step) {
      assert found[i].time >= found[i - 1].time + step;
    }
    SpacedPaged(Archive(rows, end), start, end, size, step);
  }

  lemma {:induction false} TwoBetween(a: Row, b: Row, from: int, end: int)
    requires a.time < b.time < end
    ensures from <= a.time ==> Between([a, b], from, end) == [a, b]
    ensures from > b.time ==> Between([a, b], from, end) == []
  {
    assert [a, b] == [a] + [b] && [b] == [b] + [];
    BetweenCons(a, [b], from, end);
    BetweenCons(b, [], from, end);
  }

  lemma {:induction false} LastPage(source: Source, a: Row, b: Row, start: int, end: int, step: nat)
    requires step > 0 && Honest(source, end) && source(start) == [a, b] && source(a.time + step) == []
    ensures Paged(source, start, end, 1, step) == Some([a])
  {
    FullPage(source, start, end, 1, step);
    ShortPage(source, a.time + step, end, 1, step);
    assert [a, b][..1] == [a] && [a] + [] == [a];
  }

  /** Two rows closer than the step, on either side of a page boundary: the second is lost and nothing is reported. */
  lemma {:induction false} SkippedRow(a: Row, b: Row, start: int, end: int, step: nat)
    requires start <= a.time < b.time < a.time + step && b.time < end
    ensures Between([a, b], start, end) == [a, b]
    ensures Honest(Archive([a, b], end), end)
    ensures Paged(Archive([a, b], end), start, end, 1, step) == Some([a])
  {
    ArchiveHonest([a, b], end);
    TwoBetween(a, b, start, end);
    TwoBetween(a, b, a.time + step, end);
    LastPage(Archive([a, b], end), a, b, start, end, step);
  }

  lemma {:induction false} ConcatAppend(pages: seq<Page>, page: Page)
    ensures Concat(pages + [page]) == Concat(pages) + page.rows
  {
    assert (pages + [page])[..|pages|] == pages;
  }

  predicate WellFormed(p: Page, start: int, size: nat) {
    0 < |p.rows| <= size && start <= p.from <= p.rows[0].time
  }

  predicate AllWellFormed(pages: seq<Page>, start: int, size: nat) {
    forall p | p in pages :: WellFormed(p, start, size)
  }

  lemma {:induction false} WellFormedAppend(pages: seq<Page>, page: Page, start: int, size: nat)
    requires AllWellFormed(pages, start, size) && WellFormed(page, start, size)
    ensures AllWellFormed(pages + [page], start, size)
  {
  }

  /** Where the loop goes on after a page. */
  function Next(page: seq<Row>, step: nat): int
    requires page != []
  {
    page[|page| - 1].time + step
  }

  /** Each page is the answer to its own query, the first from the start, every other from the step behind the last row
      of the page before, which was full. */
  ghost predicate Linked(rows: seq<Row>, start: int, end: int, size: nat, step: nat, pages: seq<Page>) {
    forall i | 0 <= i < |pages| ::
      Answers(rows, end, size, pages[i]) && Continues(start, size, step, pages[..i], pages[i].from)
  }

  predicate Answers(rows: seq<Row>, end: int, size: nat, page: Page) {
    page.rows == Query(rows, page.from, end - 1, size) && page.rows != [] && Ordered(page.rows)
  }

  /** Where the next page starts. */
  predicate Continues(start: int, size: nat, step: nat, pages: seq<Page>, cursor: int) {
    if pages == [] then cursor == start
    else
      var last := pages[|pages| - 1].rows;
      |last| == size && last != [] && cursor == Next(last, step)
  }

  lemma {:induction false} LinkedAppend(
    rows: seq<Row>, start: int, end: int, size: nat, step: nat, pages: seq<Page>, cursor: int, page: seq<Row>)
    requires Linked(rows, start, end, size, step, pages) && Continues(start, size, step, pages, cursor)
    requires page == Query(rows, cursor, end - 1, size) && page != [] && Ordered(page)
    ensures Linked(rows, start, end, size, step, pages + [Page(cursor, page)])
    ensures |page| >= size ==> Continues(start, size, step, pages + [Page(cursor, page)], Next(page, step))
  {
    var p := Page(cursor, page);
    var more := pages + [p];
    assert more[|pages|] == p && |more| == |pages| + 1;
    TakeLength(Between(rows, cursor, end), size);
    forall i | 0 <= i < |more|
      ensures Answers(rows, end, size, more[i]) && Continues(start, size, step, more[..i], more[i].from)
    {
      if i < |pages| {
        assert more[i] == pages[i] && more[..i] == pages[..i];
      } else {
        assert more[..i] == pages;
      }
    }
  }

  lemma {:induction false} TakeLength(rows: seq<Row>, limit: nat)
    ensures |Take(rows, limit)| <= limit
  {
  }

  /** The pages so far leave exactly the pages from the cursor on to be fetched. */
  ghost predicate Fetched(
    source: Source, cursor: int, end: int, size: nat, step: nat, pages: seq<Page>, whole: Option<seq<Row>>)
    requires step > 0 && Honest(source, end)
  {
    whole == Joined(Concat(pages), Paged(source, cursor, end, size, step))
  }

  lemma {:induction false} FetchStarts(source: Source, start: int, end: int, size: nat, step: nat)
    requires step > 0 && Honest(source, end)
    ensures Fetched(source, start, end, size, step, [], Paged(source, start, end, size, step))
  {
    JoinedTwice([], [], Paged(source, start, end, size, step));
  }

  lemma {:induction false} FetchEnds(
    source: Source, cursor: int, end: int, size: nat, step: nat, pages: seq<Page>, whole: Option<seq<Row>>)
    requires step > 0 && Honest(source, end) && Fetched(source, cursor, end, size, step, pages, whole)
    ensures cursor >= end || Take(source(cursor), size) == [] ==> whole == Some(Concat(pages))
    ensures cursor < end && !Ordered(Take(source(cursor), size)) ==> whole == None
  {
    assert Concat(pages) + [] == Concat(pages);
  }

  lemma {:induction false} FetchPage(source: Source, cursor: int, end: int, size: nat, step: nat, pages: seq<Page>,
                                     whole: Option<seq<Row>>, page: seq<Row>)
    requires step > 0 && Honest(source, end) && Fetched(source, cursor, end, size, step, pages, whole)
    requires cursor < end && page == Take(source(cursor), size) && page != [] && Ordered(page)
    ensures page[0].time >= cursor && Next(page, step) > cursor
    ensures |page| < size ==> whole == Some(Concat(pages + [Page(cursor, page)]))
    ensures |page| >= size ==> Fetched(source, Next(page, step), end, size, step, pages + [Page(cursor, page)], whole)
  {
    assert Later(source(cursor), cursor) && page[0] == source(cursor)[0];
    assert page[|page| - 1] == source(cursor)[|page| - 1];
    JoinedTwice(Concat(pages), page, Paged(source, page[|page| - 1].time + step, end, size, step));
    ConcatAppend(pages, Page(cursor, page));
  }

  /** The archive answers queries as the source does. */
  ghost predicate Serves(rows: seq<Row>, source: Source, end: int) {
    forall from :: source(from) == Between(rows, from, end)
  }

  lemma {:induction false} QueryAnswers(rows: seq<Row>, source: Source, from: int, end: int, size: nat)
    requires Serves(rows, source, end)
    ensures Query(rows, from, end - 1, size) == Take(source(from), size)
  {
  }

  /** The download loop. A page size of zero finds nothing. */
  method Pages(rows: seq<Row>, start: int, end: int, size: nat, kline: bool) returns (r: Result<seq<Page>, PagingError>)
    ensures Honest(Archive(rows, end), end)
    ensures var paged := Paged(Archive(rows, end), start, end, size, if kline then 60000 else 1);
            match r
            case Ok(pages) => paged == Some(Concat(pages))
            case Err(_) => paged == None
    ensures r.Ok? ==> AllWellFormed(r.value, start, size)
    ensures r.Ok? ==> Linked(rows, start, end, size, if kline then 60000 else 1, r.value)
  {
    ArchiveHonest(rows, end);
    r := Fetch(rows, start, end, size, if kline then 60000 else 1, Archive(rows, end));
  }

  method Fetch(rows: seq<Row>, start: int, end: int, size: nat, step: nat, ghost source: Source)
    returns (r: Result<seq<Page>, PagingError>)
    requires step > 0 && Honest(source, end) && Serves(rows, source, end)
    ensures match r
            case Ok(pages) => Paged(source, start, end, size, step) == Some(Concat(pages))
            case Err(_) => Paged(source, start, end, size, step) == None
    ensures r.Ok? ==> AllWellFormed(r.value, start, size) && Linked(rows, start, end, size, step, r.value)
  {
    var cursor := start;
    var pages: seq<Page> := [];
    ghost var whole := Paged(source, start, end, size, step);
    FetchStarts(source, start, end, size, step);
    while cursor < end
      invariant start <= cursor
      invariant AllWellFormed(pages, start, size) && Linked(rows, start, end, size, step, pages)
      invariant Continues(start, size, step, pages, cursor)
      invariant Fetched(source, cursor, end, size, step, pages, whole)
      decreases end - cursor
    {
      var page := Query(rows, cursor, end - 1, size);
      QueryAnswers(rows, source, cursor, end, size);
      FetchEnds(source, cursor, end, size, step, pages, whole);
      if page == [] { break; }
      if !Ordered(page) { return Err(PageOrderInvalid); }
      FetchPage(source, cursor, end, size, step, pages, whole, page);
      WellFormedAppend(pages, Page(cursor, page), start, size);
      LinkedAppend(rows, start, end, size, step, pages, cursor, page);
      pages := pages + [Page(cursor, page)];
      var next := Next(page, step);
      if next <= cursor { return Err(NoProgress); }
      if |page| < size { return Ok(pages); }
      cursor := next;
    }
    FetchEnds(source, cursor, end, size, step, pages, whole);
    return Ok(pages);
  }
}
