/** Searching a conversation that lives behind an HTTP API, page by page. */
module NestedEventStore {
  import opened Util
  import opened EventLog
  import opened EventStore
  import opened EventStoreTheorems

  const PAGE_LIMIT := 100
  const SERVER_DEFAULT_LIMIT := 20

  /** What the server has stored; it does not change during one search. */
  datatype Server = Server(size: nat, files: map<nat, Record>, cache: map<nat, seq<Record>>)

  ghost predicate ServerOk(sv: Server) {
    sv.size > 0 && DiskOk(sv.size, sv.files, sv.cache) && PagesReadable(sv.size, sv.cache)
  }

  /** The stored events with id in lo..hi-1. */
  function EventsOf(sv: Server, lo: int, hi: int): seq<Record>
    requires ServerOk(sv)
  {
    Ascending(sv.size, sv.files, sv.cache, None, lo, hi)
  }

  /** What the default `end` of a search amounts to. */
  function Top(sv: Server): nat {
    NextId(sv.files.Keys)
  }

  datatype Response = BadRequest | Batch(events: seq<Record>, hasMore: bool)

  /** GET /events: one event more than the limit is searched for, to know whether there are more. */
  function Route(sv: Server, start: int, end: Option<int>, reverse: bool, limit: int): Response
    requires ServerOk(sv)
  {
    if limit < 0 || limit > PAGE_LIMIT then BadRequest
    else
      var all := EventsOf(sv, start, if end.Some? then end.value + 1 else Top(sv));
      var found := Limited(if reverse then Reversed(all) else all, Some(limit + 1));
      if |found| > limit then Batch(found[..limit], true) else Batch(found, false)
  }

  predicate Names(es: seq<Record>, end: Option<int>) {
    exists i :: 0 <= i < |es| && end == Some(es[i].id)
  }

  /** The events up to and including the one named by `end`; all of them when it names none. */
  function UpTo(es: seq<Record>, end: Option<int>): seq<Record> {
    if es == [] then []
    else if end == Some(es[0].id) then [es[0]]
    else [es[0]] + UpTo(es[1..], end)
  }

  function Included(es: seq<Record>, f: Filter): seq<Record> {
    Filtered(es, r => Includes(f, r))
  }

  /** What a search over `es` gives its caller. */
  function Outcome(es: seq<Record>, end: Option<int>, f: Filter, limit: Option<int>): seq<Record> {
    Limited(Included(UpTo(es, end), f), limit)
  }

  lemma NamesFirstOrRest(xs: seq<Record>, end: Option<int>)
    ensures Names(xs, end) <==> xs != [] && (end == Some(xs[0].id) || Names(xs[1..], end))
  {
    if Names(xs, end) {
      var i :| 0 <= i < |xs| && end == Some(xs[i].id);
      assert i > 0 ==> end == Some(xs[1..][i - 1].id);
    } else if xs != [] {
      assert forall i :: 0 <= i < |xs[1..]| ==> xs[1..][i] == xs[i + 1];
    }
  }

  lemma {:induction false} UpToAppend(xs: seq<Record>, ys: seq<Record>, end: Option<int>)
    ensures UpTo(xs + ys, end) == if Names(xs, end) then UpTo(xs, end) else xs + UpTo(ys, end)
  {
    hide Names;
    NamesFirstOrRest(xs, end);
    if xs == [] {
      assert xs + ys == ys;
    } else if end == Some(xs[0].id) {
      assert (xs + ys)[0] == xs[0];
    } else {
      assert (xs + ys)[1..] == xs[1..] + ys;
      UpToAppend(xs[1..], ys, end);
      if !Names(xs, end) {
        assert [xs[0]] + (xs[1..] + UpTo(ys, end)) == xs + UpTo(ys, end);
      }
    }
  }

  lemma UpToNothingNamed(xs: seq<Record>, end: Option<int>)
    requires !Names(xs, end)
    ensures UpTo(xs, end) == xs
  {
    UpToAppend(xs, [], end);
    assert xs + [] == xs;
  }

  lemma OnlyPosition(all: seq<Record>, below: seq<Record>, x: Record, above: seq<Record>, j: nat)
    requires all == below + [x] + above && j < |all| && all[j] == x
    requires forall i, k :: 0 <= i < k < |all| ==> all[i].id < all[k].id
    ensures j == |below| && all[..j] == below && all[j + 1..] == above
  {
    assert all[|below|] == x;
  }

  lemma StoredAround(sv: Server, lo: int, id: int, hi: int)
    requires ServerOk(sv) && lo <= id < hi && 0 <= id && id in sv.files
    ensures EventsOf(sv, lo, hi) == EventsOf(sv, lo, id) + [sv.files[id]] + EventsOf(sv, id + 1, hi)
    ensures EventsOf(sv, lo, id + 1) == EventsOf(sv, lo, id) + [sv.files[id]]
  {
    LookupFindsFile(sv.size, sv.files, sv.cache, id);
    AscendingSplits(sv.size, sv.files, sv.cache, None, lo, id + 1, hi);
  }

  lemma StoredEventsAreFiles(sv: Server, lo: int, hi: int)
    requires ServerOk(sv)
    ensures var all := EventsOf(sv, lo, hi);
            && (forall i :: 0 <= i < |all| ==>
                  lo <= all[i].id < hi && all[i].id in sv.files && sv.files[all[i].id] == all[i])
            && (forall i, k :: 0 <= i < k < |all| ==> all[i].id < all[k].id)
  {
    SearchFindsExactly(sv.size, sv.files, sv.cache, None, lo, hi);
    var all := EventsOf(sv, lo, hi);
    forall i | 0 <= i < |all| ensures lo <= all[i].id < hi && all[i].id in sv.files && sv.files[all[i].id] == all[i] {
      assert all[i] in all;
    }
  }

  /** A stored event's id splits the stored events around it. */
  lemma CutAt(sv: Server, lo: int, hi: int, j: nat)
    requires ServerOk(sv) && j < |EventsOf(sv, lo, hi)|
    ensures var all := EventsOf(sv, lo, hi); var id := all[j].id;
            && lo <= id < hi && all[..j] == EventsOf(sv, lo, id) && all[j + 1..] == EventsOf(sv, id + 1, hi)
            && all[..j + 1] == EventsOf(sv, lo, id + 1)
  {
    var all := EventsOf(sv, lo, hi);
    var id := all[j].id;
    StoredEventsAreFiles(sv, lo, hi);
    StoredAround(sv, lo, id, hi);
    assert all[..j + 1] == all[..j] + [all[j]];
    OnlyPosition(all, EventsOf(sv, lo, id), all[j], EventsOf(sv, id + 1, hi), j);
  }

  /** The limit that is left after `n` results. */
  function Left(limit: Option<int>, n: nat): Option<int> {
    if limit.Some? then Some(limit.value - n) else None
  }

  function Got(e: Record, f: Filter): seq<Record> {
    if Includes(f, e) then [e] else []
  }

  /** Does the loop return at this event? */
  predicate StopsAt(e: Record, end: Option<int>, f: Filter, left: Option<int>) {
    end == Some(e.id) || (left.Some? && Includes(f, e) && left.value <= 1)
  }

  /** What a loop over `es` has yielded in the end, when `out` came before ... */
  function Scan(out: seq<Record>, es: seq<Record>, end: Option<int>, f: Filter, left: Option<int>): (r: seq<Record>)
    ensures |out| <= |r|
    decreases |es|
  {
    if es == [] then out
    else
      var got := Got(es[0], f);
      if StopsAt(es[0], end, f, left) then out + got else Scan(out + got, es[1..], end, f, Left(left, |got|))
  }

  /** ... and whether it returns within them. */
  predicate Stops(es: seq<Record>, end: Option<int>, f: Filter, left: Option<int>) {
    es != [] && (StopsAt(es[0], end, f, left) || Stops(es[1..], end, f, Left(left, |Got(es[0], f)|)))
  }

  lemma ScanStep(out: seq<Record>, es: seq<Record>, end: Option<int>, f: Filter, left: Option<int>)
    ensures es == [] ==> Scan(out, es, end, f, left) == out && !Stops(es, end, f, left)
    ensures es != [] ==>
              var got := Got(es[0], f);
              if StopsAt(es[0], end, f, left) then Scan(out, es, end, f, left) == out + got && Stops(es, end, f, left)
              else
                && Scan(out, es, end, f, left) == Scan(out + got, es[1..], end, f, Left(left, |got|))
                && (Stops(es, end, f, left) <==> Stops(es[1..], end, f, Left(left, |got|)))
  {
  }

  /** A loop over two pages is a loop over the first and, unless it returns there, over the second. */
  lemma {:induction false} ScanAppend(out: seq<Record>, page: seq<Record>, after: seq<Record>, end: Option<int>,
                                      f: Filter, left: Option<int>)
    requires left.Some? ==> left.value > 0
    ensures var done := Scan(out, page, end, f, left);
            && (Stops(page, end, f, left) ==> Scan(out, page + after, end, f, left) == done)
            && (!Stops(page, end, f, left) ==>
                  && Scan(out, page + after, end, f, left) == Scan(done, after, end, f, Left(left, |done| - |out|))
                  && (left.Some? ==> |done| - |out| < left.value))
    decreases |page|
  {
    hide Scan, Stops;
    ScanStep(out, page, end, f, left);
    ScanStep(out, page + after, end, f, left);
    if page == [] {
      assert page + after == after;
    } else {
      var got := Got(page[0], f);
      assert (page + after)[0] == page[0] && (page + after)[1..] == page[1..] + after;
      if !StopsAt(page[0], end, f, left) {
        ScanAppend(out + got, page[1..], after, end, f, Left(left, |got|));
      }
    }
  }

  lemma LimitedAppend(xs: seq<Record>, ys: seq<Record>, limit: Option<int>)
    requires limit.Some? ==> |xs| < limit.value
    ensures Limited(xs + ys, limit) == xs + Limited(ys, Left(limit, |xs|))
  {
  }

  /** What the first of some events contributes to the outcome. */
  lemma OutcomeCons(e: Record, rest: seq<Record>, end: Option<int>, f: Filter, limit: Option<int>)
    requires limit.Some? ==> limit.value > 0
    ensures Outcome([e] + rest, end, f, limit)
            == if StopsAt(e, end, f, limit) then Got(e, f)
                else Got(e, f) + Outcome(rest, end, f, Left(limit, |Got(e, f)|))
  {
    hide Filtered;
    assert ([e] + rest)[1..] == rest;
    if end == Some(e.id) {
      FilteredOne(e, r => Includes(f, r));
    } else {
      FilteredCons(e, UpTo(rest, end), r => Includes(f, r));
      if !StopsAt(e, end, f, limit) {
        LimitedAppend(Got(e, f), Included(UpTo(rest, end), f), limit);
      }
    }
  }

  /** The loop yields the included events up to the one named by `end`, up to the limit. */
  lemma {:induction false} ScanIsOutcome(out: seq<Record>, es: seq<Record>, end: Option<int>, f: Filter,
                                         limit: Option<int>)
    requires limit.Some? ==> limit.value > 0
    ensures Scan(out, es, end, f, limit) == out + Outcome(es, end, f, limit)
    decreases |es|
  {
    if es != [] {
      var e, rest, got := es[0], es[1..], Got(es[0], f);
      assert es == [e] + rest;
      OutcomeCons(e, rest, end, f, limit);
      if !StopsAt(e, end, f, limit) {
        ScanIsOutcome(out + got, rest, end, f, Left(limit, |got|));
        AppendAssociates(out, got, Outcome(rest, end, f, Left(limit, |got|)));
      }
    }
  }

  /** One page handed to the caller, up to the event named by `end` or the limit. */
  method ScanPage(before: seq<Record>, page: seq<Record>, end: Option<int>, f: Filter, limit: Option<int>)
    returns (out: seq<Record>, stop: bool, left: Option<int>)
    ensures out == Scan(before, page, end, f, limit)
    ensures stop <==> Stops(page, end, f, limit)
    ensures left == Left(limit, |out| - |before|)
  {
    hide Scan, Stops;
    out, stop, left := before, false, limit;
    assert page[0..] == page;
    for i := 0 to |page|
      invariant |before| <= |out| && left == Left(limit, |out| - |before|)
      invariant !stop
      invariant Scan(before, page, end, f, limit) == Scan(out, page[i..], end, f, left)
      invariant Stops(page, end, f, limit) <==> Stops(page[i..], end, f, left)
    {
      var event := page[i];
      assert page[i..][0] == event && page[i..][1..] == page[i + 1..] && out + [] == out;
      ScanStep(out, page[i..], end, f, left);
      if end == Some(event.id) {
        if Includes(f, event) {
          out := out + [event];
          if limit.Some? { left := Some(left.value - 1); }
        }
        stop := true;
        return;
      }
      if Includes(f, event) {
        out := out + [event];
        if limit.Some? {
          left := Some(left.value - 1);
          if left.value <= 0 {
            stop := true;
            return;
          }
        }
      }
    }
    ScanStep(out, page[|page|..], end, f, left);
  }

  /** What is still to be fetched when the cursors stand at `start` and `end`. */
  function Rest(sv: Server, start: int, end: Option<int>, reverse: bool): seq<Record>
    requires ServerOk(sv)
  {
    var all := EventsOf(sv, start, if end.Some? then end.value + 1 else Top(sv));
    if reverse then Reversed(all) else all
  }

  lemma BatchIsPrefix(sv: Server, start: int, end: Option<int>, reverse: bool, limit: int)
    requires ServerOk(sv) && 0 < limit <= PAGE_LIMIT
    ensures var rest := Rest(sv, start, end, reverse);
            Route(sv, start, end, reverse, limit) == Batch(rest[..Min(limit, |rest|)], limit < |rest|)
  {
  }

  /** The smallest id of a page, if it has any ... */
  function PageMin(page: seq<Record>): Option<int> {
    if page == [] then None
    else
      var m, id := PageMin(page[..|page| - 1]), page[|page| - 1].id;
      Some(if m.None? then id else Min(m.value, id))
  }

  /** ... and one more than its largest, or `start` if that is larger. */
  function PageNext(page: seq<Record>, start: int): int {
    if page == [] then start
    else
      var n, id := PageNext(page[..|page| - 1], start), page[|page| - 1].id;
      if n < id + 1 then id + 1 else n
  }

  /** The cursors derived from one page. */
  method PageCursors(page: seq<Record>, start: int) returns (pageMin: Option<int>, next: int)
    ensures pageMin == PageMin(page) && next == PageNext(page, start)
  {
    pageMin, next := None, start;
    for i := 0 to |page|
      invariant pageMin == PageMin(page[..i]) && next == PageNext(page[..i], start)
    {
      assert page[..i + 1][..i] == page[..i];
      pageMin := Some(if pageMin.None? then page[i].id else Min(pageMin.value, page[i].id));
      next := if next < page[i].id + 1 then page[i].id + 1 else next;
    }
    assert page[..|page|] == page;
  }

  lemma {:induction false} CursorsOfPage(page: seq<Record>, start: int)
    requires page != []
    ensures PageMin(page).Some? && AreCursors(page, start, PageMin(page).value, PageNext(page, start))
    ensures start <= PageNext(page, start)
  {
    var init, last := page[..|page| - 1], |page| - 1;
    if init != [] {
      CursorsOfPage(init, start);
      var i :| 0 <= i < last && init[i].id == PageMin(init).value;
      assert page[i] == init[i];
      if PageNext(init, start) != start {
        var k :| 0 <= k < last && init[k].id + 1 == PageNext(init, start);
        assert page[k] == init[k];
      }
    }
    assert page[last].id + 1 <= PageNext(page, start);
  }

  /** The smallest and the largest id of a page. */
  ghost predicate AreCursors(page: seq<Record>, start: int, pageMin: int, next: int) {
    && (forall i :: 0 <= i < |page| ==> pageMin <= page[i].id < next)
    && (exists i :: 0 <= i < |page| && page[i].id == pageMin)
    && (next == start || exists i :: 0 <= i < |page| && page[i].id + 1 == next)
  }

  /** Moving the cursor past a page leaves exactly the events after it, going up ... */
  lemma ForwardCursor(sv: Server, start: int, page: seq<Record>, pageMin: int, next: int)
    requires ServerOk(sv) && page != [] && page <= EventsOf(sv, start, Top(sv))
               && AreCursors(page, start, pageMin, next)
    ensures EventsOf(sv, start, Top(sv))[|page|..] == EventsOf(sv, next, Top(sv))
  {
    var all, last := EventsOf(sv, start, Top(sv)), |page| - 1;
    StoredEventsAreFiles(sv, start, Top(sv));
    assert forall i :: 0 <= i < |page| ==> page[i] == all[i];
    assert page[last].id < next;
    CutAt(sv, start, Top(sv), last);
  }

  lemma SmallestIsLast(all: seq<Record>, page: seq<Record>, start: int, pageMin: int, next: int)
    requires page != [] && page <= Reversed(all) && AreCursors(page, start, pageMin, next)
    requires forall i, k :: 0 <= i < k < |all| ==> all[i].id < all[k].id
    ensures pageMin == all[|all| - |page|].id
  {
    assert forall i :: 0 <= i < |page| ==> page[i] == all[|all| - 1 - i];
    assert pageMin <= page[|page| - 1].id;
  }

  /** ... and going down. */
  lemma BackwardCursor(sv: Server, start: int, hi: int, page: seq<Record>, pageMin: int, next: int)
    requires ServerOk(sv) && page != [] && page <= Reversed(EventsOf(sv, start, hi))
               && AreCursors(page, start, pageMin, next)
    ensures Reversed(EventsOf(sv, start, hi))[|page|..] == Reversed(EventsOf(sv, start, pageMin))
  {
    var all := EventsOf(sv, start, hi);
    var j := |all| - |page|;
    StoredEventsAreFiles(sv, start, hi);
    SmallestIsLast(all, page, start, pageMin, next);
    CutAt(sv, start, hi, j);
    assert Reversed(all)[|page|..] == Reversed(all[..j]);
  }

  /** The cursors for the next request. */
  function NextStart(reverse: bool, start: int, next: int): int {
    if reverse then start else next
  }

  function NextEnd(reverse: bool, end: Option<int>, pageMin: Option<int>): Option<int> {
    if reverse && pageMin.Some? then Some(pageMin.value - 1) else end
  }

  lemma CursorsLeaveTheRest(sv: Server, start: int, end: Option<int>, reverse: bool, page: seq<Record>)
    requires ServerOk(sv) && (!reverse ==> end == None) && page <= Rest(sv, start, end, reverse)
    ensures Rest(sv, NextStart(reverse, start, PageNext(page, start)), NextEnd(reverse, end, PageMin(page)), reverse)
            == Rest(sv, start, end, reverse)[|page|..]
  {
    if page != [] {
      CursorsOfPage(page, start);
      var pageMin, next := PageMin(page).value, PageNext(page, start);
      if reverse {
        BackwardCursor(sv, start, if end.Some? then end.value + 1 else Top(sv), page, pageMin, next);
      } else {
        ForwardCursor(sv, start, page, pageMin, next);
      }
    }
  }

  /** The limit a request asks for; the server has its own without one. */
  function RequestLimit(left: Option<int>): int {
    if left.Some? then Min(PAGE_LIMIT, left.value) else SERVER_DEFAULT_LIMIT
  }

  /** With a positive limit the page is a prefix of what is left, and the cursors leave the rest. */
  lemma RequestSplitsRest(sv: Server, start: int, end: Option<int>, reverse: bool, left: Option<int>)
    requires ServerOk(sv) && (!reverse ==> end == None) && (left.Some? ==> left.value > 0)
    ensures var rest, r := Rest(sv, start, end, reverse), Route(sv, start, end, reverse, RequestLimit(left));
            && r.Batch? && r.events <= rest
            && (r.hasMore <==> |r.events| < |rest|) && (r.hasMore ==> r.events != [])
            && Rest(sv, NextStart(reverse, start, PageNext(r.events, start)),
                NextEnd(reverse, end, PageMin(r.events)), reverse)
               == rest[|r.events|..]
  {
    BatchIsPrefix(sv, start, end, reverse, RequestLimit(left));
    CursorsLeaveTheRest(sv, start, end, reverse, Route(sv, start, end, reverse, RequestLimit(left)).events);
  }

  /** With limit 0 the page is empty and the cursors stay where they are. */
  lemma EmptyRequest(sv: Server, start: int, end: Option<int>, reverse: bool)
    requires ServerOk(sv) && (!reverse ==> end == None)
    ensures Route(sv, start, end, reverse, RequestLimit(Some(0))) == Batch([], Rest(sv, start, end, reverse) != [])
    ensures NextStart(reverse, start, PageNext([], start)) == start && NextEnd(reverse, end, PageMin([])) == end
    ensures forall out, name, f :: Scan(out, [], name, f, Some(0)) == out
    ensures forall name, f :: Outcome([], name, f, Some(0)) == []
  {
    var rest := Rest(sv, start, end, reverse);
    assert Limited(rest, Some(1)) == rest[..Min(|rest|, 1)];
  }

  /** The server refuses limits below 0 and above 100.  The client never asks for more than 100 and gets 20
      when it asks for none: the page has as many events as are left, up to that. */
  lemma PageIsAsLongAsItMayBe(sv: Server, start: int, end: Option<int>, reverse: bool, left: Option<int>)
    requires ServerOk(sv)
    ensures forall limit :: Route(sv, start, end, reverse, limit).BadRequest? <==> limit < 0 || 100 < limit
    ensures var rest, n := Rest(sv, start, end, reverse),
                           if left.None? then 20 else if left.value < 100 then left.value else 100;
            n >= 0 ==> Route(sv, start, end, reverse, RequestLimit(left))
                       == if |rest| <= n then Batch(rest, false) else Batch(rest[..n], true)
  {
  }

  lemma OnlyNegativeLimitsAreRefused(sv: Server, start: int, end: Option<int>, reverse: bool, left: Option<int>)
    requires ServerOk(sv)
    ensures Route(sv, start, end, reverse, RequestLimit(left)).BadRequest? <==> left.Some? && left.value < 0
  {
  }

  /** One request, and the cursors for the next.  It fails on a limit the server refuses. */
  method FetchPage(sv: Server, start: int, end: Option<int>, reverse: bool, left: Option<int>)
    returns (ok: bool, page: seq<Record>, hasMore: bool, start': int, end': Option<int>)
    requires ServerOk(sv)
    ensures ok <==> Route(sv, start, end, reverse, RequestLimit(left)).Batch?
    ensures ok ==> Route(sv, start, end, reverse, RequestLimit(left)) == Batch(page, hasMore)
    ensures ok ==>
              start' == NextStart(reverse, start, PageNext(page, start)) && end' == NextEnd(reverse, end, PageMin(page))
  {
    var resultSet := Route(sv, start, end, reverse, RequestLimit(left));
    start', end' := start, end;
    if resultSet.BadRequest? {
      ok, page, hasMore := false, [], false;
      return;
    }
    ok, page, hasMore := true, resultSet.events, resultSet.hasMore;
    var pageMin, next := PageCursors(page, start);
    if reverse && pageMin.Some? {
      end' := Some(pageMin.value - 1);
    } else if !reverse {
      start' := next;
    }
  }

  /** With a positive limit one turn of the loop takes its page off what is left to loop over. */
  lemma TurnTakesPage(sv: Server, out: seq<Record>, start: int, end: Option<int>, reverse: bool,
                      name: Option<int>, f: Filter, left: Option<int>)
    requires ServerOk(sv) && (!reverse ==> end == None) && (left.Some? ==> left.value > 0)
    ensures var rest, r := Rest(sv, start, end, reverse), Route(sv, start, end, reverse, RequestLimit(left));
            && r.Batch?
            && var done := Scan(out, r.events, name, f, left);
            var next := Rest(sv, NextStart(reverse, start, PageNext(r.events, start)),
                NextEnd(reverse, end, PageMin(r.events)), reverse);
            if Stops(r.events, name, f, left) || !r.hasMore then Scan(out, rest, name, f, left) == done
            else
              && Scan(out, rest, name, f, left) == Scan(done, next, name, f, Left(left, |done| - |out|))
              && (left.Some? ==> |done| - |out| < left.value) && |next| < |rest|
  {
    hide Rest, Route, PageMin, PageNext, NextStart, NextEnd, Scan, Stops;
    RequestSplitsRest(sv, start, end, reverse, left);
    var rest, page := Rest(sv, start, end, reverse), Route(sv, start, end, reverse, RequestLimit(left)).events;
    assert rest == page + rest[|page|..];
    ScanAppend(out, page, rest[|page|..], name, f, left);
    if |page| == |rest| {
      assert rest == page;
    }
  }

  /** What one turn of the client's loop comes to. */
  datatype Turn = Fails | Returns | Again(start: int, end: Option<int>, left: Option<int>)

  function TurnOf(sv: Server, start: int, end: Option<int>, reverse: bool, name: Option<int>, f: Filter,
                  left: Option<int>): Turn
    requires ServerOk(sv)
  {
    var r := Route(sv, start, end, reverse, RequestLimit(left));
    if r.BadRequest? then Fails
    else if Stops(r.events, name, f, left) || !r.hasMore then Returns
    else Again(NextStart(reverse, start, PageNext(r.events, start)), NextEnd(reverse, end, PageMin(r.events)),
               Left(left, |Scan([], r.events, name, f, left)|))
  }

  /** The loop is over after at most `n` turns. */
  predicate EndsWithin(sv: Server, start: int, end: Option<int>, reverse: bool, name: Option<int>, f: Filter,
                       left: Option<int>, n: nat)
    requires ServerOk(sv)
    decreases n
  {
    n > 0 &&
    var turn := TurnOf(sv, start, end, reverse, name, f, left);
    turn.Again? ==> EndsWithin(sv, turn.start, turn.end, reverse, name, f, turn.left, n - 1)
  }

  /** Where the loop stands: with a positive limit looping on over what is left completes the search, and
      otherwise it is at its first request. */
  ghost predicate Going(sv: Server, start: int, reverse: bool, name: Option<int>, f: Filter, limit: Option<int>,
                        out: seq<Record>, startCursor: int, endCursor: Option<int>, left: Option<int>)
    requires ServerOk(sv)
  {
    if limit.None? || limit.value > 0 then
      && (left.Some? ==> left.value > 0) && (!reverse ==> endCursor == None)
      && Scan(out, Rest(sv, startCursor, endCursor, reverse), name, f, left)
         == Outcome(Rest(sv, start, None, reverse), name, f, limit)
    else
      startCursor == start && endCursor == None && left == limit && out == []
  }

  lemma StartsGoing(sv: Server, start: int, reverse: bool, name: Option<int>, f: Filter, limit: Option<int>)
    requires ServerOk(sv)
    ensures Going(sv, start, reverse, name, f, limit, [], start, None, limit)
  {
    if limit.None? || limit.value > 0 {
      ScanIsOutcome([], Rest(sv, start, None, reverse), name, f, limit);
    }
  }

  /** One turn fails on a negative limit, ends with the outcome of the search, or gets closer to it. */
  lemma TurnGoesOn(sv: Server, start: int, reverse: bool, name: Option<int>, f: Filter, limit: Option<int>,
                   out: seq<Record>, startCursor: int, endCursor: Option<int>, left: Option<int>)
    requires ServerOk(sv) && Going(sv, start, reverse, name, f, limit, out, startCursor, endCursor, left)
    requires limit == Some(0) ==> Rest(sv, start, None, reverse) == []
    ensures var r := Route(sv, startCursor, endCursor, reverse, RequestLimit(left));
            && (r.BadRequest? <==> limit.Some? && limit.value < 0)
            && (r.BadRequest? ==> out == [])
            && (r.Batch? ==>
                  var done := Scan(out, r.events, name, f, left);
                  var start', end' := NextStart(reverse, startCursor, PageNext(r.events, startCursor)),
                      NextEnd(reverse, endCursor, PageMin(r.events));
                  if Stops(r.events, name, f, left) || !r.hasMore
                  then done == Outcome(Rest(sv, start, None, reverse), name, f, limit)
                  else
                    && Going(sv, start, reverse, name, f, limit, done, start', end', Left(left, |done| - |out|))
                    && |Rest(sv, start', end', reverse)| < |Rest(sv, startCursor, endCursor, reverse)|)
  {
    hide Rest, Route, PageMin, PageNext, NextStart, Scan, Stops, Outcome, ServerOk;
    OnlyNegativeLimitsAreRefused(sv, startCursor, endCursor, reverse, left);
    if limit.None? || limit.value > 0 {
      TurnTakesPage(sv, out, startCursor, endCursor, reverse, name, f, left);
    } else if limit.value == 0 {
      EmptyRequest(sv, startCursor, endCursor, reverse);
    }
  }

  /** The search as the client runs it.  It yields the stored events from `start` on (or downwards to
      `start`), each once, up to the one named by `end` and to the limit, and fails on a negative limit.
      With limit 0 it ends only if nothing is stored there (SearchEndsExactlyWhen). */
  method SearchEvents(server: Option<Server>, start: int, end: Option<int>, reverse: bool, f: Filter,
                      limit: Option<int>)
    returns (ok: bool, out: seq<Record>)
    requires server.Some? ==> ServerOk(server.value)
    requires server.Some? && limit == Some(0) ==> Rest(server.value, start, None, reverse) == []
    ensures server.None? ==> ok && out == []
    ensures server.Some? ==> (ok <==> limit.None? || limit.value >= 0)
    ensures server.Some? ==> out == if ok then Outcome(Rest(server.value, start, None, reverse), end, f, limit) else []
  {
    hide *;
    ok, out := true, [];
    if server.None? {
      return;  // 404
    }
    var sv := server.value;
    var startCursor, endCursor, left := start, None, limit;
    StartsGoing(sv, start, reverse, end, f, limit);
    while true
      invariant ok && Going(sv, start, reverse, end, f, limit, out, startCursor, endCursor, left)
      decreases |Rest(sv, startCursor, endCursor, reverse)|
    {
      var page, hasMore, start', end';
      TurnGoesOn(sv, start, reverse, end, f, limit, out, startCursor, endCursor, left);
      ok, page, hasMore, start', end' := FetchPage(sv, startCursor, endCursor, reverse, left);
      if !ok {
        return;
      }
      var stop;
      out, stop, left := ScanPage(out, page, end, f, left);
      if stop || !hasMore {
        return;
      }
      startCursor, endCursor := start', end';
    }
  }

  /** get_event of the remote store: the first event of a search that starts at `id`. */
  method GetEvent(server: Option<Server>, id: int) returns (r: Option<Record>)
    requires server.Some? ==> ServerOk(server.value)
    ensures server.None? ==> r == None
    ensures server.Some? ==> var found := EventsOf(server.value, id, Top(server.value));
                             r == if found == [] then None else Some(found[0])
  {
    var ok, events := SearchEvents(server, id, None, false, None, Some(1));
    if server.Some? {
      var found := EventsOf(server.value, id, Top(server.value));
      UpToNothingNamed(found, None);
      FilterCommutes(server.value.size, server.value.files, server.value.cache, None, id, Top(server.value));
    }
    r := if events == [] then None else Some(events[0]);
  }
}
