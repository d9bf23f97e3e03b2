/** How the remote search compares with the search of the store behind it. */
module NestedEventStoreTheorems {
  import opened Util
  import opened EventLog
  import opened EventStore
  import opened EventStoreTheorems
  import opened NestedEventStore

  /** What EventStore.SearchEvents yields on the server's own files. */
  function Local(sv: Server, start: int, end: Option<int>, reverse: bool, f: Filter, limit: Option<int>): seq<Record>
    requires ServerOk(sv)
  {
    var all := Ascending(sv.size, sv.files, sv.cache, f, start, if end.Some? then end.value + 1 else Top(sv));
    Limited(if reverse then Reversed(all) else all, limit)
  }

  /** What NestedEventStore.SearchEvents yields. */
  function Remote(sv: Server, start: int, end: Option<int>, reverse: bool, f: Filter, limit: Option<int>): seq<Record>
    requires ServerOk(sv)
  {
    Outcome(Rest(sv, start, None, reverse), end, f, limit)
  }

  lemma {:induction false} FilteredReversed(xs: seq<Record>, f: Filter)
    ensures Included(Reversed(xs), f) == Reversed(Included(xs, f))
  {
    if xs == [] {
    } else {
      var init, x := xs[..|xs| - 1], xs[|xs| - 1];
      assert xs == init + [x];
      ReversedAppend(init, [x]);
      FilteredReversed(init, f);
      FilteredAppend([x], Reversed(init), r => Includes(f, r));
      ReversedAppend(Included(init, f), if Includes(f, x) then [x] else []);
      assert Included(xs, f) == Included(init, f) + if Includes(f, x) then [x] else [];
      assert [x][..0] == [];
      assert Included([x], f) == if Includes(f, x) then [x] else [];
      assert Reversed([x]) == [x];
    }
  }

  /** Remote pagination refines local search, forwards and backwards, without an end. */
  lemma RemoteIsLocalWithoutEnd(sv: Server, start: int, reverse: bool, f: Filter, limit: Option<int>)
    requires ServerOk(sv)
    ensures Remote(sv, start, None, reverse, f, limit) == Local(sv, start, None, reverse, f, limit)
  {
    var all := EventsOf(sv, start, Top(sv));
    FilterCommutes(sv.size, sv.files, sv.cache, f, start, Top(sv));
    FilteredReversed(all, f);
    UpToNothingNamed(Rest(sv, start, None, reverse), None);
  }

  lemma NamedExactlyWhenStored(sv: Server, start: int, e: int)
    requires ServerOk(sv)
    ensures Names(EventsOf(sv, start, Top(sv)), Some(e)) <==> start <= e && 0 <= e && e in sv.files
  {
    var all := EventsOf(sv, start, Top(sv));
    SearchFindsExactly(sv.size, sv.files, sv.cache, None, start, Top(sv));
    if Names(all, Some(e)) {
      var i :| 0 <= i < |all| && all[i].id == e;
      assert all[i] in all;
    }
    if start <= e && 0 <= e && e in sv.files {
      assert e in sv.files.Keys;
      assert sv.files[e] in all;
      var i :| 0 <= i < |all| && all[i] == sv.files[e];
    }
  }

  lemma UpToAt(all: seq<Record>, j: nat, e: int)
    requires j < |all| && all[j].id == e
    requires forall i :: 0 <= i < j ==> all[i].id < e
    ensures UpTo(all, Some(e)) == all[..j + 1]
  {
    assert all == all[..j] + all[j..];
    UpToAppend(all[..j], all[j..], Some(e));
    assert all[j..][0] == all[j];
  }

  lemma UpToStoredEnd(sv: Server, start: int, e: int)
    requires ServerOk(sv) && Names(EventsOf(sv, start, Top(sv)), Some(e))
    ensures UpTo(EventsOf(sv, start, Top(sv)), Some(e)) == EventsOf(sv, start, e + 1)
  {
    var all := EventsOf(sv, start, Top(sv));
    var j :| 0 <= j < |all| && all[j].id == e;
    StoredEventsAreFiles(sv, start, Top(sv));
    UpToAt(all, j, e);
    CutAt(sv, start, Top(sv), j);
  }

  /** ... and forwards up to an end that names a stored event. */
  lemma RemoteIsLocalUpToStoredEnd(sv: Server, start: int, e: int, f: Filter, limit: Option<int>)
    requires ServerOk(sv) && start <= e && 0 <= e && e in sv.files
    ensures Remote(sv, start, Some(e), false, f, limit) == Local(sv, start, Some(e), false, f, limit)
  {
    NamedExactlyWhenStored(sv, start, e);
    UpToStoredEnd(sv, start, e);
    FilterCommutes(sv.size, sv.files, sv.cache, f, start, e + 1);
  }

  /** An end that names no stored event is overlooked: the client runs on past it. */
  lemma RemoteOverlooksMissingEnd(sv: Server, start: int, e: int, f: Filter, limit: Option<int>)
    requires ServerOk(sv) && !(start <= e && 0 <= e && e in sv.files)
    ensures Remote(sv, start, Some(e), false, f, limit) == Local(sv, start, None, false, f, limit)
  {
    NamedExactlyWhenStored(sv, start, e);
    UpToNothingNamed(EventsOf(sv, start, Top(sv)), Some(e));
    FilterCommutes(sv.size, sv.files, sv.cache, f, start, Top(sv));
  }

  lemma LimitHidesTheRest(xs: seq<Record>, ys: seq<Record>, limit: Option<int>)
    requires limit.Some? ==> limit.value > 0
    ensures Limited(xs + ys, limit) == Limited(xs, limit) <==> ys == [] || (limit.Some? && limit.value <= |xs|)
  {
    if ys == [] {
      assert xs + ys == xs;
    }
  }

  lemma EndSplitsRange(sv: Server, start: int, e: int, f: Filter)
    requires ServerOk(sv)
    ensures Ascending(sv.size, sv.files, sv.cache, f, start, Top(sv))
            == Ascending(sv.size, sv.files, sv.cache, f, start, e + 1)
               + Ascending(sv.size, sv.files, sv.cache, f, if start < e + 1 then e + 1 else start, Top(sv))
  {
    if start < e + 1 && e + 1 <= Top(sv) {
      AscendingSplits(sv.size, sv.files, sv.cache, f, start, e + 1, Top(sv));
    } else if start < e + 1 {
      NothingAboveTop(sv, f, start, e + 1);
    }
  }

  /** The result is then the local one exactly when no included event lies beyond the end, or the limit
      is reached before it. */
  lemma MissingEndIsHarmlessExactlyWhen(sv: Server, start: int, e: int, f: Filter, limit: Option<int>)
    requires ServerOk(sv) && (limit.Some? ==> limit.value > 0)
    requires !(start <= e && 0 <= e && e in sv.files)
    ensures var upToEnd := Ascending(sv.size, sv.files, sv.cache, f, start, e + 1);
            var beyond := Ascending(sv.size, sv.files, sv.cache, f, if start < e + 1 then e + 1 else start, Top(sv));
            Remote(sv, start, Some(e), false, f, limit) == Local(sv, start, Some(e), false, f, limit)
            <==> beyond == [] || (limit.Some? && limit.value <= |upToEnd|)
  {
    hide Remote, Ascending, Limited;
    RemoteOverlooksMissingEnd(sv, start, e, f, limit);
    EndSplitsRange(sv, start, e, f);
    LimitHidesTheRest(Ascending(sv.size, sv.files, sv.cache, f, start, e + 1),
                      Ascending(sv.size, sv.files, sv.cache, f, if start < e + 1 then e + 1 else start, Top(sv)),
                      limit);
  }

  lemma {:induction false} NothingAboveTop(sv: Server, f: Filter, lo: int, hi: int)
    requires ServerOk(sv) && Top(sv) <= hi
    ensures Ascending(sv.size, sv.files, sv.cache, f, lo, hi) == Ascending(sv.size, sv.files, sv.cache, f, lo, Top(sv))
    decreases hi
  {
    if Top(sv) < hi {
      NothingAboveTop(sv, f, lo, hi - 1);
      LookupFindsFile(sv.size, sv.files, sv.cache, hi - 1);
      assert hi - 1 !in sv.files.Keys;
    }
  }

  /** With a positive limit a turn that goes on leaves less to be searched. */
  lemma TurnMakesProgress(sv: Server, start: int, end: Option<int>, reverse: bool, name: Option<int>, f: Filter,
                          left: Option<int>)
    requires ServerOk(sv) && (!reverse ==> end == None) && (left.Some? ==> left.value > 0)
    ensures var turn := TurnOf(sv, start, end, reverse, name, f, left);
            turn.Again? ==>
              && (!reverse ==> turn.end == None) && (turn.left.Some? ==> turn.left.value > 0)
              && |Rest(sv, turn.start, turn.end, reverse)| < |Rest(sv, start, end, reverse)|
  {
    TurnTakesPage(sv, [], start, end, reverse, name, f, left);
  }

  lemma {:induction false} PositiveLimitEnds(sv: Server, start: int, end: Option<int>, reverse: bool,
                                             name: Option<int>, f: Filter, left: Option<int>, n: nat)
    requires ServerOk(sv) && (!reverse ==> end == None) && (left.Some? ==> left.value > 0)
    requires |Rest(sv, start, end, reverse)| < n
    ensures EndsWithin(sv, start, end, reverse, name, f, left, n)
    decreases n
  {
    hide TurnOf, Rest, ServerOk;
    TurnMakesProgress(sv, start, end, reverse, name, f, left);
    var turn := TurnOf(sv, start, end, reverse, name, f, left);
    if turn.Again? {
      PositiveLimitEnds(sv, turn.start, turn.end, reverse, name, f, turn.left, n - 1);
    }
  }

  lemma {:induction false} ZeroLimitNeverEnds(sv: Server, start: int, end: Option<int>, reverse: bool,
                                              name: Option<int>, f: Filter, n: nat)
    requires ServerOk(sv) && (!reverse ==> end == None) && Rest(sv, start, end, reverse) != []
    ensures !EndsWithin(sv, start, end, reverse, name, f, Some(0), n)
    decreases n
  {
    if n > 0 {
      EmptyRequest(sv, start, end, reverse);
      assert TurnOf(sv, start, end, reverse, name, f, Some(0)) == Again(start, end, Some(0));
      ZeroLimitNeverEnds(sv, start, end, reverse, name, f, n - 1);
    }
  }

  /** In both directions, with any end, filter and limit, the remote search ends if and only if it is not
      given the limit 0 while something is stored to be searched: the server then answers empty pages with
      has_more set, and the cursors never move. */
  lemma SearchEndsExactlyWhen(sv: Server, start: int, reverse: bool, name: Option<int>, f: Filter, limit: Option<int>)
    requires ServerOk(sv)
    ensures (exists n :: EndsWithin(sv, start, None, reverse, name, f, limit, n))
            <==> limit != Some(0) || Rest(sv, start, None, reverse) == []
  {
    hide *;
    if limit == Some(0) && Rest(sv, start, None, reverse) != [] {
      forall n: nat ensures !EndsWithin(sv, start, None, reverse, name, f, limit, n) {
        ZeroLimitNeverEnds(sv, start, None, reverse, name, f, n);
      }
    } else {
      var n := TurnsNeeded(sv, start, reverse, name, f, limit);
      assert exists m: nat :: EndsWithin(sv, start, None, reverse, name, f, limit, m) by {
        assert EndsWithin(sv, start, None, reverse, name, f, limit, n);
      }
    }
  }

  lemma TurnsNeeded(sv: Server, start: int, reverse: bool, name: Option<int>, f: Filter, limit: Option<int>)
    returns (n: nat)
    requires ServerOk(sv) && (limit != Some(0) || Rest(sv, start, None, reverse) == [])
    ensures EndsWithin(sv, start, None, reverse, name, f, limit, n)
  {
    n := 1;
    if limit.None? || limit.value > 0 {
      n := |Rest(sv, start, None, reverse)| + 1;
      PositiveLimitEnds(sv, start, None, reverse, name, f, limit, n);
    } else if limit == Some(0) {
      EmptyRequest(sv, start, None, reverse);
    }
  }
}
