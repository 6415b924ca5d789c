/** The event timeline read page by page: no event is lost or repeated, and reading stops. */
module Timeline {

  import opened Text

  /** An event with its derived category and the case-folded text a query is looked up in. */
  datatype Event = Event(sequence: int, category: string, haystack: string)

  datatype Page = Page(items: seq<Event>, nextCursor: int, hasMore: bool)

  datatype Filter = Filter(category: string, query: string)

  function Cursor(after: int): nat { if after < 0 then 0 else after }

  /** At least one row and at most a thousand. */
  function PageSize(limit: int): nat { if limit < 1 then 1 else if limit > 1000 then 1000 else limit }

  predicate Matches(e: Event, f: Filter) {
    && (f.category == "" || e.category == f.category)
    && (Lower(Strip(f.query)) == "" || Contains(e.haystack, Lower(Strip(f.query))))
  }

  /** Every event after the cursor that passes the filter, in order. */
  function Matching(events: seq<Event>, after: nat, f: Filter): seq<Event> {
    if events == [] then []
    else
      var last := events[|events| - 1];
      Matching(events[..|events| - 1], after, f) + if last.sequence > after && Matches(last, f) then [last] else []
  }

  function PageAt(events: seq<Event>, after: int, limit: int, f: Filter): Page {
    var all := Matching(events, Cursor(after), f);
    var rows := if |all| <= PageSize(limit) then all else all[..PageSize(limit)];
    if rows == [] || events == [] then Page(rows, Cursor(after), false)
    else
      var last := rows[|rows| - 1].sequence;
      Page(rows, last, last < events[|events| - 1].sequence)
  }

  method ReadTimeline(events: seq<Event>, after: int, limit: int, f: Filter) returns (page: Page)
    ensures page == PageAt(events, after, limit, f)
  {
    hide Matches, PageSize, Matching, Cursor;
    PagesHoldRows(limit);
    var cursor := Cursor(after);
    var rows: seq<Event> := [];
    EmptyHasNoMatches(events[..0], cursor, f);
    var i := 0;
    while i < |events|
      invariant 0 <= i <= |events| && |rows| < PageSize(limit)
      invariant rows == Matching(events[..i], cursor, f)
    {
      var event := events[i];
      MatchingStep(events, i, cursor, f);
      i := i + 1;
      if event.sequence > cursor && Matches(event, f) {
        rows := rows + [event];
        if |rows| >= PageSize(limit) {
          break;
        }
      }
    }
    PrefixesMatchFirst(events, i, cursor, f);
    assert i == |events| ==> events[..i] == events;
    EmptyHasNoMatches(events, cursor, f);
    if rows == [] {
      page := Page(rows, cursor, false);
    } else {
      var last := rows[|rows| - 1].sequence;
      page := Page(rows, last, last < events[|events| - 1].sequence);
    }
  }

  lemma MatchingStep(events: seq<Event>, i: nat, after: nat, f: Filter)
    requires i < |events|
    ensures Matching(events[..i + 1], after, f)
            == Matching(events[..i], after, f)
               + if events[i].sequence > after && Matches(events[i], f) then [events[i]] else []
  {
    hide Matches;
    assert events[..i + 1][..i] == events[..i];
  }

  lemma PagesHoldRows(limit: int)
    ensures 1 <= PageSize(limit) <= 1000
  {
  }

  lemma {:induction false} PrefixesMatchFirst(events: seq<Event>, k: nat, after: nat, f: Filter)
    requires k <= |events|
    ensures Matching(events[..k], after, f) <= Matching(events, after, f)
  {
    if k == |events| {
      assert events[..k] == events;
    } else {
      assert events[..|events| - 1][..k] == events[..k];
      PrefixesMatchFirst(events[..|events| - 1], k, after, f);
    }
  }

  lemma EmptyHasNoMatches(events: seq<Event>, after: nat, f: Filter)
    ensures events == [] ==> Matching(events, after, f) == []
  {
  }

  // ---------------------------------------------------------------- reading page by page

  ghost predicate Increasing(events: seq<Event>) {
    forall i, j :: 0 <= i < j < |events| ==> events[i].sequence < events[j].sequence
  }

  lemma IncreasingFront(events: seq<Event>)
    requires Increasing(events) && events != []
    ensures Increasing(events[..|events| - 1])
    ensures forall e :: e in events[..|events| - 1] ==> e.sequence < events[|events| - 1].sequence
  {
  }

  lemma {:induction false} NothingPastTheEnd(events: seq<Event>, after: nat, f: Filter)
    requires forall e :: e in events ==> e.sequence <= after
    ensures Matching(events, after, f) == []
  {
    hide Matches;
    if events != [] {
      NothingPastTheEnd(events[..|events| - 1], after, f);
    }
  }

  lemma {:induction false} MatchesAreBounded(events: seq<Event>, after: nat, f: Filter, k: nat)
    requires k < |Matching(events, after, f)|
    ensures after < Matching(events, after, f)[k].sequence && Matching(events, after, f)[k] in events
  {
    hide Matches;
    var front, last := events[..|events| - 1], events[|events| - 1];
    assert events == front + [last];
    if k < |Matching(front, after, f)| {
      MatchesAreBounded(front, after, f, k);
    }
  }

  /** Moving the cursor to the sequence of the n-th match drops exactly the first n matches. */
  lemma {:induction false} CursorDropsRead(events: seq<Event>, after: nat, f: Filter, n: nat)
    requires Increasing(events) && 0 < n <= |Matching(events, after, f)|
    ensures var all := Matching(events, after, f);
            all[n - 1].sequence > after && Matching(events, all[n - 1].sequence, f) == all[n..]
    decreases |events|
  {
    hide Matches;
    var front, last := events[..|events| - 1], events[|events| - 1];
    var all, before := Matching(events, after, f), Matching(front, after, f);
    IncreasingFront(events);
    if n <= |before| {
      CursorDropsRead(front, after, f, n);
      MatchesAreBounded(front, after, f, n - 1);
      assert all[n - 1] == before[n - 1];
    } else {
      assert all == before + [last];
      NothingPastTheEnd(front, last.sequence, f);
      assert all[n..] == [];
    }
  }

  /** The pages a reader sees who follows `next_cursor` while `has_more`. */
  function ReadAll(events: seq<Event>, after: int, limit: int, f: Filter): seq<Page>
    requires Increasing(events)
    decreases |Matching(events, Cursor(after), f)|
  {
    var page := PageAt(events, after, limit, f);
    if !page.hasMore then [page]
    else
      PageAdvances(events, after, limit, f);
      [page] + ReadAll(events, page.nextCursor, limit, f)
  }

  lemma PageAdvances(events: seq<Event>, after: int, limit: int, f: Filter)
    requires Increasing(events)
    ensures var page, all := PageAt(events, after, limit, f), Matching(events, Cursor(after), f);
            && page.items <= all
            && (all != [] ==>
                  && |page.items| >= 1 && page.nextCursor > Cursor(after)
                  && Matching(events, Cursor(page.nextCursor), f) == all[|page.items|..])
            && (all == [] ==> !page.hasMore)
  {
    hide Matches, Matching, PageSize;
    PagesHoldRows(limit);
    EmptyHasNoMatches(events, Cursor(after), f);
    var all, page := Matching(events, Cursor(after), f), PageAt(events, after, limit, f);
    if all != [] {
      CursorDropsRead(events, Cursor(after), f, |page.items|);
    }
  }

  function Concatenated(pages: seq<Page>): seq<Event> {
    if pages == [] then [] else pages[0].items + Concatenated(pages[1..])
  }

  /** A page without more is the last one: every match after the cursor is on it. */
  lemma LastPageIsComplete(events: seq<Event>, after: int, limit: int, f: Filter)
    requires Increasing(events) && !PageAt(events, after, limit, f).hasMore
    ensures PageAt(events, after, limit, f).items == Matching(events, Cursor(after), f)
  {
    hide Matches, Matching, PageSize;
    PagesHoldRows(limit);
    EmptyHasNoMatches(events, Cursor(after), f);
    var all, n := Matching(events, Cursor(after), f), PageSize(limit);
    if |all| > n {
      MatchesAreBounded(events, Cursor(after), f, n);
      MatchesIncrease(events, Cursor(after), f, n - 1, n);
      LastIsLargest(events, all[n]);
    }
  }

  lemma LastIsLargest(events: seq<Event>, e: Event)
    requires Increasing(events) && e in events
    ensures e.sequence <= events[|events| - 1].sequence
  {
  }

  lemma MatchesIncrease(events: seq<Event>, after: nat, f: Filter, j: nat, k: nat)
    requires Increasing(events) && j < k < |Matching(events, after, f)|
    ensures Matching(events, after, f)[j].sequence < Matching(events, after, f)[k].sequence
  {
    hide Matches, Matching;
    var all := Matching(events, after, f);
    CursorDropsRead(events, after, f, j + 1);
    assert all[j + 1..][k - j - 1] == all[k];
    MatchesAreBounded(events, all[j].sequence, f, k - j - 1);
  }

  /** The concatenated pages are the filtered events after the cursor: nothing lost, nothing repeated, order kept. */
  lemma {:induction false} PagesCoverTheTimeline(events: seq<Event>, after: int, limit: int, f: Filter)
    requires Increasing(events)
    ensures Concatenated(ReadAll(events, after, limit, f)) == Matching(events, Cursor(after), f)
    decreases |Matching(events, Cursor(after), f)|
  {
    hide PageAt, Matching;
    var page, all := PageAt(events, after, limit, f), Matching(events, Cursor(after), f);
    PageAdvances(events, after, limit, f);
    if page.hasMore {
      PagesCoverTheTimeline(events, page.nextCursor, limit, f);
      assert page.items + all[|page.items|..] == all;
      assert ([page] + ReadAll(events, page.nextCursor, limit, f))[1..] == ReadAll(events, page.nextCursor, limit, f);
    } else {
      LastPageIsComplete(events, after, limit, f);
      assert [page][1..] == [];
    }
  }

  /** From cursor zero the reader sees every matching event exactly when the matching sequences are positive. */
  lemma {:induction false} PositiveEventsAreAllSeen(events: seq<Event>, f: Filter)
    ensures (forall e :: e in events && Matches(e, f) ==> e in Matching(events, 0, f))
            <==> (forall e :: e in events && Matches(e, f) ==> e.sequence > 0)
  {
    forall e
      ensures e in Matching(events, 0, f) <==> e in events && Matches(e, f) && e.sequence > 0
    {
      MatchingElements(events, 0, f, e);
    }
  }

  lemma {:induction false} MatchingElements(events: seq<Event>, after: nat, f: Filter, e: Event)
    ensures e in Matching(events, after, f) <==> e in events && Matches(e, f) && e.sequence > after
  {
    hide Matches;
    if events != [] {
      MatchingElements(events[..|events| - 1], after, f, e);
      assert events == events[..|events| - 1] + [events[|events| - 1]];
    }
  }

  lemma {:induction false} ConcatenatedElements(pages: seq<Page>, e: Event)
    ensures e in Concatenated(pages) <==> exists p :: p in pages && e in p.items
  {
    if pages != [] {
      ConcatenatedElements(pages[1..], e);
      assert pages == [pages[0]] + pages[1..];
      if e in pages[0].items {
        assert pages[0] in pages;
      }
    }
  }

  /**
   * A reader who follows the cursor sees an event exactly if it lies after the start, is of the category asked for, if
   * any, and its text contains the query, without case and the blanks around it.
   */
  lemma ReaderSees(events: seq<Event>, after: int, limit: int, f: Filter, e: Event)
    requires Increasing(events)
    ensures (exists p :: p in ReadAll(events, after, limit, f) && e in p.items) <==>
              && e in events && e.sequence > after && e.sequence > 0
              && (f.category == "" || e.category == f.category)
              && exists i :: 0 <= i <= |e.haystack| && Lower(Strip(f.query)) <= e.haystack[i..]
  {
    hide ReadAll, Concatenated, Matching, Strip, Lower;
    PagesCoverTheTimeline(events, after, limit, f);
    ConcatenatedElements(ReadAll(events, after, limit, f), e);
    MatchingElements(events, Cursor(after), f, e);
    ContainsMeans(e.haystack, Lower(Strip(f.query)));
    if Lower(Strip(f.query)) == "" {
      assert "" <= e.haystack[0..];
    }
  }

  /** A page holds as many rows as asked for, at least one and at most a thousand, unless fewer are left. */
  lemma PagesAreAsLongAsAsked(events: seq<Event>, after: int, limit: int, f: Filter)
    ensures var page, all := PageAt(events, after, limit, f), Matching(events, Cursor(after), f);
            && page.items <= all
            && (page.items != all ==> |page.items| >= 1 && (|page.items| == limit || limit < 1 || limit > 1000))
            && (page.items != all && limit < 1 ==> |page.items| == 1)
            && (page.items != all && limit > 1000 ==> |page.items| == 1000)
            && (1 <= limit <= 1000 ==> |page.items| <= limit) && |page.items| <= 1000 && (limit < 1 ==> |page.items| <= 1)
  {
    hide Matching;
  }

  lemma PagesAreFullOrLast(events: seq<Event>, after: int, limit: int, f: Filter)
    requires Increasing(events)
    ensures var page, all := PageAt(events, after, limit, f), Matching(events, Cursor(after), f);
            |page.items| == if |all| <= PageSize(limit) then |all| else PageSize(limit)
  {
    hide Matching, Matches, PageSize;
  }

  /** At most one page more than it takes to hold the matches: only the last page is partial, and one may be empty. */
  lemma {:induction false} FewPages(events: seq<Event>, after: int, limit: int, f: Filter)
    requires Increasing(events)
    ensures var all := Matching(events, Cursor(after), f);
            && |ReadAll(events, after, limit, f)| >= 1
            && (|ReadAll(events, after, limit, f)| >= 2 ==>
                  |all| > (|ReadAll(events, after, limit, f)| - 2) * PageSize(limit))
    decreases |Matching(events, Cursor(after), f)|
  {
    hide PageAt, Matching, PageSize;
    var page, all := PageAt(events, after, limit, f), Matching(events, Cursor(after), f);
    PageAdvances(events, after, limit, f);
    PagesAreFullOrLast(events, after, limit, f);
    if page.hasMore {
      FewPages(events, page.nextCursor, limit, f);
      var rest := |ReadAll(events, page.nextCursor, limit, f)|;
      assert |ReadAll(events, after, limit, f)| == rest + 1;
      if rest >= 2 {
        assert |all| > PageSize(limit);
        OneMoreFactor(rest - 2, PageSize(limit));
      }
    }
  }

  lemma OneMoreFactor(k: int, n: int)
    ensures (k + 1) * n == k * n + n
  {
  }

  /** Two events with the same sequence on a page boundary: the second one is never shown. */
  lemma EqualSequencesLoseEvents()
    ensures var a, b := Event(1, "", "a"), Event(1, "", "b");
            && PageAt([a, b], 0, 1, Filter("", "")) == Page([a], 1, false)
            && b in Matching([a, b], 0, Filter("", ""))
  {
    var a, b, f := Event(1, "", "a"), Event(1, "", "b"), Filter("", "");
    assert Strip("") == "" && Lower("") == "";
    assert [a, b][..1] == [a] && [a][..0] == [];
    assert Matching([], 0, f) == [];
    assert Matching([a], 0, f) == [a];
    assert Matching([a, b], 0, f) == [a, b];
  }
}
