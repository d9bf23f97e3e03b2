/** Reading the event log: search over cached pages with a fall-back to single event files. */
module EventStore {
  import opened Util
  import opened EventLog

  /** An absent filter includes every event. */
  type Filter = Option<Record -> bool>

  predicate Includes(f: Filter, r: Record) {
    f.None? || f.value(r)
  }

  /** The pages a store can read: each as long as cache_size, or empty (which counts as absent). */
  ghost predicate PagesReadable(size: nat, cache: map<nat, seq<Record>>) {
    size > 0 && forall p :: p in cache ==> |cache[p]| == size || cache[p] == []
  }

  /** The contents of the page file that starts at `p`, empty when there is none. */
  function PageAt(cache: map<nat, seq<Record>>, p: int): seq<Record> {
    if 0 <= p && p as nat in cache then cache[p as nat] else []
  }

  /** The page a reader consults for index `i`: the one starting at the multiple of `size` below it. */
  function PageFor(size: nat, cache: map<nat, seq<Record>>, i: int): seq<Record>
    requires size > 0
  {
    PageAt(cache, i - i % size)
  }

  /** The event found for index `i`: from its page when there is one, else from its file. */
  function Lookup(size: nat, files: map<nat, Record>, cache: map<nat, seq<Record>>, i: int): Option<Record>
    requires PagesReadable(size, cache)
  {
    var page := PageFor(size, cache, i);
    if page != [] then Some(page[i % size])
    else if 0 <= i && i in files then Some(files[i]) else None
  }

  /** The event of index `i`, if present and included, as a sequence of at most one. */
  function Match(size: nat, files: map<nat, Record>, cache: map<nat, seq<Record>>, f: Filter, i: int): seq<Record>
    requires PagesReadable(size, cache)
  {
    var e := Lookup(size, files, cache, i);
    if e.Some? && Includes(f, e.value) then [e.value] else []
  }

  /** The included events with index in lo..hi-1, in order. */
  function Ascending(size: nat, files: map<nat, Record>, cache: map<nat, seq<Record>>, f: Filter, lo: int,
                     hi: int): seq<Record>
    requires PagesReadable(size, cache)
    decreases hi - lo
  {
    if hi <= lo then [] else Ascending(size, files, cache, f, lo, hi - 1) + Match(size, files, cache, f, hi - 1)
  }

  /** `limit` results; no limit at all when it is absent or 0, and a negative one stops after the first. */
  function Limited(all: seq<Record>, limit: Option<int>): seq<Record> {
    if limit.None? || limit.value == 0 then all
    else all[..Min(|all|, if limit.value < 0 then 1 else limit.value)]
  }

  lemma {:induction false} AscendingSplits(size: nat, files: map<nat, Record>, cache: map<nat, seq<Record>>, f: Filter,
                                          lo: int, mid: int, hi: int)
    requires PagesReadable(size, cache) && lo <= mid <= hi
    ensures Ascending(size, files, cache, f, lo, hi)
            == Ascending(size, files, cache, f, lo, mid) + Ascending(size, files, cache, f, mid, hi)
    decreases hi - mid
  {
    if mid < hi {
      AscendingSplits(size, files, cache, f, lo, mid, hi - 1);
    }
  }

  class EventStore {
    const size: nat
    var files: map<nat, Record>
    var cache: map<nat, seq<Record>>
    /** What listing the events directory yields: ids, or None for a name that is not a number. */
    var listing: seq<Option<int>>
    /** _cur_id, once it has been calculated. */
    var knownId: Option<nat>

    constructor (size: nat, files: map<nat, Record>, cache: map<nat, seq<Record>>, listing: seq<Option<int>>)
      requires PagesReadable(size, cache)
      ensures Valid() && this.size == size && this.files == files && this.cache == cache
      ensures this.listing == listing && knownId == None
    {
      this.size, this.files, this.cache, this.listing, knownId := size, files, cache, listing, None;
    }

    ghost predicate Valid()
      reads this
    {
      PagesReadable(size, cache)
    }

    method CalculateCurId() returns (id: nat)
      ensures forall i :: Some(i) in listing ==> i < id
      ensures id > 0 ==> Some(id - 1) in listing
    {
      if listing == [] {
        return 0;
      }
      var maxId: int := -1;
      for k := 0 to |listing|
        invariant -1 <= maxId
        invariant forall i :: Some(i) in listing[..k] ==> i <= maxId
        invariant maxId >= 0 ==> Some(maxId) in listing
      {
        assert listing[..k + 1] == listing[..k] + [listing[k]];
        var i := if listing[k].Some? then listing[k].value else -1;
        if i >= maxId {
          maxId := i;
        }
      }
      assert listing[..|listing|] == listing;
      id := maxId + 1;
    }

    /** The lazily calculated property: the first reading fixes it. */
    method CurId() returns (id: nat)
      modifies this`knownId
      ensures knownId == Some(id)
      ensures old(knownId).Some? ==> knownId == old(knownId)
      ensures old(knownId).None? ==> (forall i :: Some(i) in listing ==> i < id) && (id > 0 ==> Some(id - 1) in listing)
    {
      if knownId.None? {
        id := CalculateCurId();
        knownId := Some(id);
      } else {
        id := knownId.value;
      }
    }

    /** Events with index from `start` to the inclusive `end` (by default everything below cur_id). */
    method SearchEvents(start: int, end: Option<int>, reverse: bool, f: Filter, limit: Option<int>)
      returns (out: seq<Record>, bound: int)
      requires Valid()
      modifies this`knownId
      ensures bound == if end.Some? then end.value + 1 else if knownId.Some? then knownId.value else -1
      ensures end.None? ==> knownId.Some?
      ensures old(knownId).Some? || end.Some? ==> knownId == old(knownId)
      ensures knownId.Some? && old(knownId).None? ==> ListsUpTo(listing, knownId.value)
      ensures var all := Ascending(size, files, cache, f, start, bound);
              out == Limited(if reverse then Reversed(all) else all, limit)
    {
      if end.None? {
        bound := CurId();
      } else {
        bound := end.value + 1;
      }
      if reverse {
        out := ScanDown(start, bound, f, limit);
      } else {
        out := ScanUp(start, bound, f, limit);
      }
    }

    /** One event of a scan: the page in hand is kept as long as it covers the index. */
    method Fetch(index: int, page: CachePage) returns (e: Option<Record>, page': CachePage)
      requires Valid() && IsPage(size, cache, page)
      ensures e == Lookup(size, files, cache, index) && IsPage(size, cache, page')
    {
      page' := page;
      if !page.Covers(index) {
        page' := LoadPage(index);
      }
      CoveringPage(size, cache, page', index);
      if page'.events != [] {
        e := Some(page'.events[index - page'.start]);
      } else if 0 <= index && index in files {
        e := Some(files[index]);
      } else {
        e := None;
      }
    }

    method LoadPage(index: int) returns (page: CachePage)
      requires Valid()
      ensures IsPage(size, cache, page) && page.Covers(index)
    {
      var offset := index % size;
      page := CachePage(PageAt(cache, index - offset), index - offset, index - offset + size);
      AlignedStart(size, index);
    }

    method ScanUp(start: int, bound: int, f: Filter, limit: Option<int>) returns (out: seq<Record>)
      requires Valid()
      ensures out == Limited(Ascending(size, files, cache, f, start, bound), limit)
    {
      hide Ascending, Limited, Reached, Lookup, IsPage, Includes;
      ghost var all := Ascending(size, files, cache, f, start, bound);
      BeforeScanning(size, files, cache, f, start, bound, limit);
      out := [];
      var page := DUMMY_PAGE;
      var index := start;
      while index < bound
        invariant start <= index <= (if start < bound then bound else start)
        invariant all == Ascending(size, files, cache, f, start, bound)
        invariant out == Ascending(size, files, cache, f, start, index)
        invariant !Reached(limit, |out|) && IsPage(size, cache, page)
      {
        var e;
        e, page := Fetch(index, page);
        OneMoreAbove(size, files, cache, f, start, index, bound);
        if e.Some? && Includes(f, e.value) {
          out := out + [e.value];
          if Reached(limit, |out|) {
            StopsAtLimit(all, limit, out);
            return;
          }
        }
        index := index + 1;
      }
      AllWithinLimit(all, limit);
    }

    method ScanDown(start: int, bound: int, f: Filter, limit: Option<int>) returns (out: seq<Record>)
      requires Valid()
      ensures out == Limited(Reversed(Ascending(size, files, cache, f, start, bound)), limit)
    {
      hide Ascending, Reversed, Limited, Reached, Lookup, IsPage, Includes;
      ghost var all := Reversed(Ascending(size, files, cache, f, start, bound));
      BeforeScanning(size, files, cache, f, start, bound, limit);
      out := [];
      var page := DUMMY_PAGE;
      var index := bound - 1;
      while index > start - 1
        invariant (if start < bound then start - 1 else bound - 1) <= index <= bound - 1
        invariant out == Reversed(Ascending(size, files, cache, f, index + 1, bound))
        invariant all == Reversed(Ascending(size, files, cache, f, start, bound))
        invariant !Reached(limit, |out|) && IsPage(size, cache, page)
        decreases index - start
      {
        var e;
        e, page := Fetch(index, page);
        OneMoreBelow(size, files, cache, f, start, index, bound);
        if e.Some? && Includes(f, e.value) {
          out := out + [e.value];
          if Reached(limit, |out|) {
            StopsAtLimit(all, limit, out);
            return;
          }
        }
        index := index - 1;
      }
      AllWithinLimit(all, limit);
    }
  }

  datatype CachePage = CachePage(events: seq<Record>, start: int, end: int) {
    predicate Covers(index: int) {
      start <= index < end
    }
  }

  const DUMMY_PAGE := CachePage([], 1, -1)

  /** A page as loaded for some index, or the dummy, which covers nothing. */
  ghost predicate IsPage(size: nat, cache: map<nat, seq<Record>>, page: CachePage)
    requires size > 0
  {
    page.end < page.start ||
    (page.start % size == 0 && page.end == page.start + size && page.events == PageAt(cache, page.start))
  }

  /** The test made after each result. */
  predicate Reached(limit: Option<int>, found: nat) {
    limit.Some? && limit.value != 0 && limit.value <= found && found > 0
  }

  lemma AllWithinLimit(all: seq<Record>, limit: Option<int>)
    requires !Reached(limit, |all|)
    ensures Limited(all, limit) == all
  {
  }

  lemma BeforeScanning(size: nat, files: map<nat, Record>, cache: map<nat, seq<Record>>, f: Filter, lo: int, hi: int,
                       limit: Option<int>)
    requires PagesReadable(size, cache)
    ensures !Reached(limit, 0) && IsPage(size, cache, DUMMY_PAGE)
    ensures Ascending(size, files, cache, f, lo, lo) == [] && Ascending(size, files, cache, f, hi, hi) == []
    ensures hi <= lo ==> Ascending(size, files, cache, f, lo, hi) == []
    ensures Reversed<Record>([]) == []
  {
  }

  lemma StopsAtLimit(all: seq<Record>, limit: Option<int>, out: seq<Record>)
    requires out <= all && out != [] && Reached(limit, |out|) && !Reached(limit, |out| - 1)
    ensures out == Limited(all, limit)
  {
  }

  lemma OneMoreAbove(size: nat, files: map<nat, Record>, cache: map<nat, seq<Record>>, f: Filter,
                     lo: int, i: int, hi: int)
    requires PagesReadable(size, cache) && lo <= i < hi
    ensures Ascending(size, files, cache, f, lo, i + 1)
            == Ascending(size, files, cache, f, lo, i) + Match(size, files, cache, f, i)
    ensures Ascending(size, files, cache, f, lo, i + 1) <= Ascending(size, files, cache, f, lo, hi)
  {
    AscendingSplits(size, files, cache, f, lo, i + 1, hi);
  }

  lemma OneMoreBelow(size: nat, files: map<nat, Record>, cache: map<nat, seq<Record>>, f: Filter,
                     lo: int, i: int, hi: int)
    requires PagesReadable(size, cache) && lo <= i < hi
    ensures Reversed(Ascending(size, files, cache, f, i, hi))
            == Reversed(Ascending(size, files, cache, f, i + 1, hi)) + Match(size, files, cache, f, i)
    ensures Reversed(Ascending(size, files, cache, f, i, hi)) <= Reversed(Ascending(size, files, cache, f, lo, hi))
  {
    hide Ascending, Match, Reversed, PagesReadable;
    var one, rest := Match(size, files, cache, f, i), Ascending(size, files, cache, f, i + 1, hi);
    AscendingSplits(size, files, cache, f, i, i + 1, hi);
    AscendingOfOne(size, files, cache, f, i);
    ReversedAppend(one, rest);
    var before, all := Ascending(size, files, cache, f, lo, i), Ascending(size, files, cache, f, i, hi);
    AscendingSplits(size, files, cache, f, lo, i, hi);
    ReversedAppend(before, all);
  }

  lemma AscendingOfOne(size: nat, files: map<nat, Record>, cache: map<nat, seq<Record>>, f: Filter, i: int)
    requires PagesReadable(size, cache)
    ensures Ascending(size, files, cache, f, i, i + 1) == Match(size, files, cache, f, i)
    ensures Reversed(Match(size, files, cache, f, i)) == Match(size, files, cache, f, i)
  {
    assert Ascending(size, files, cache, f, i, i) == [];
  }

  ghost predicate ListsUpTo(listing: seq<Option<int>>, id: nat) {
    (forall i :: Some(i) in listing ==> i < id) && (id > 0 ==> Some(id - 1) in listing)
  }

  lemma AlignedStart(size: nat, i: int)
    requires size > 0
    ensures 0 <= i % size < size && (i - i % size) % size == 0
  {
    ModOfSum(size, i / size, 0);
    assert i == (i / size) * size + i % size;
  }

  /** An aligned page that covers an index is the page of that index. */
  lemma CoveringPage(size: nat, cache: map<nat, seq<Record>>, page: CachePage, i: int)
    requires size > 0 && IsPage(size, cache, page) && page.Covers(i)
    ensures i - page.start == i % size && page.events == PageFor(size, cache, i)
  {
    var q := page.start / size;
    assert page.start == q * size + page.start % size;
    ModOfSum(size, q, i - page.start);
  }

  lemma ModOfSum(size: nat, q: int, r: int)
    requires size > 0 && 0 <= r < size
    ensures (q * size + r) % size == r
  {
    var x := q * size + r;
    var d := x / size - q;
    assert x == (x / size) * size + x % size;
    assert d * size == r - x % size;
    assert d > 0 ==> d * size >= size;
    assert d < 0 ==> d * size <= -1 * size;
  }
}
