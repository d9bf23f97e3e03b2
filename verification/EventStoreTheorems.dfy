/** What a search through the page cache returns, said without pages. */
module EventStoreTheorems {
  import opened Util
  import opened EventLog
  import opened EventLogTheorems
  import opened EventStore

  type Files = map<nat, Record>
  type Pages = map<nat, seq<Record>>

  lemma AgreeingPagesAreReadable(size: nat, files: Files, cache: Pages)
    requires size > 0 && DiskOk(size, files, cache)
    ensures PagesReadable(size, cache)
  {
    forall p | p in cache ensures |cache[p]| == size { assert PageAgrees(size, files, p, cache[p]); }
  }

  lemma LookupFindsFile(size: nat, files: Files, cache: Pages, i: int)
    requires size > 0 && DiskOk(size, files, cache) && PagesReadable(size, cache)
    ensures Lookup(size, files, cache, i) == if 0 <= i && i in files then Some(files[i]) else None
  {
    if PageFor(size, cache, i) != [] {
      var p: nat := i - i % size;
      assert PageAgrees(size, files, p, cache[p]);
      assert p <= i < p + size && i - p == i % size;
      assert i in files;
    }
  }

  lemma MatchIsPlain(size: nat, files: Files, cache: Pages, f: Filter, i: int)
    requires size > 0 && DiskOk(size, files, cache) && PagesReadable(size, cache)
    ensures Match(size, files, cache, f, i) == Match(size, files, map[], f, i)
  {
    LookupFindsFile(size, files, cache, i);
  }

  /** Paged search refines plain search: as long as pages agree with the event files, the search yields
      what reading every file of the range one by one would. */
  lemma {:induction false} PagedSearchIsPlain(size: nat, files: Files, cache: Pages, f: Filter, lo: int, hi: int)
    requires size > 0 && DiskOk(size, files, cache) && PagesReadable(size, cache)
    ensures Ascending(size, files, cache, f, lo, hi) == Ascending(size, files, map[], f, lo, hi)
    decreases hi - lo
  {
    hide Match, DiskOk;
    if lo < hi {
      PagedSearchIsPlain(size, files, cache, f, lo, hi - 1);
      MatchIsPlain(size, files, cache, f, hi - 1);
    }
  }

  /** An event is found if and only if it is stored under an id of the range and the filter includes
      it; each is found once, and ids go up: gaps in the range are passed over. */
  lemma {:induction false} SearchFindsExactly(size: nat, files: Files, cache: Pages, f: Filter, lo: int, hi: int)
    requires size > 0 && DiskOk(size, files, cache) && PagesReadable(size, cache)
    ensures var all := Ascending(size, files, cache, f, lo, hi);
            && (forall r :: r in all <==> lo <= r.id < hi && r.id in files && files[r.id] == r && Includes(f, r))
            && (forall i, j :: 0 <= i < j < |all| ==> all[i].id < all[j].id)
    decreases hi - lo
  {
    if lo < hi {
      SearchFindsExactly(size, files, cache, f, lo, hi - 1);
      LookupFindsFile(size, files, cache, hi - 1);
      var below, top := Ascending(size, files, cache, f, lo, hi - 1), Match(size, files, cache, f, hi - 1);
      forall r: Record
        ensures r in below + top <==> lo <= r.id < hi && r.id in files && files[r.id] == r && Includes(f, r)
      {
        assert r in below + top <==> r in below || r in top;
      }
      assert forall i :: 0 <= i < |below| ==> below[i] in below;
    }
  }

  /** A page that starts at `p` and can be read at `i`. */
  ghost predicate Serves(size: nat, cache: Pages, p: nat, i: int) {
    p in cache && cache[p] != [] && p <= i < p + size && exists k: nat :: p == size * k
  }

  lemma AlignedIsUnique(size: nat, k: nat, i: int)
    requires size * k <= i < size * k + size
    ensures i - i % size == size * k && i % size == i - size * k
  {
    ModOfSum(size, k, i - size * k);
  }

  /** Whatever pages and files hold, agreeing or not: a page that starts at a multiple of its size and reaches
      the index comes first, and the event stands in it at its distance from the start; a file is read only
      where there is none. */
  lemma PageComesFirst(size: nat, files: Files, cache: Pages, i: int)
    requires PagesReadable(size, cache)
    ensures forall p :: Serves(size, cache, p, i) ==> Lookup(size, files, cache, i) == Some(cache[p][i - p])
    ensures (forall p :: !Serves(size, cache, p, i)) ==>
              Lookup(size, files, cache, i) == if 0 <= i && i in files then Some(files[i]) else None
  {
    forall p | Serves(size, cache, p, i) ensures Lookup(size, files, cache, i) == Some(cache[p][i - p]) {
      var k: nat :| p == size * k;
      AlignedIsUnique(size, k, i);
    }
    if PageFor(size, cache, i) != [] {
      var p: nat := i - i % size;
      AlignedStart(size, i);
      assert p == size * (p / size);
      assert Serves(size, cache, p, i);
    }
  }

  /** Which of the events searched a limit lets through: all of them without one or with 0, as many as it says,
      and one if it is negative, always from the front. */
  lemma LimitLetsThrough(all: seq<Record>, limit: Option<int>)
    ensures var out := Limited(all, limit);
            && out <= all
            && (|out| < |all| ==>
                  limit.Some? && limit.value != 0 && |out| == if limit.value < 0 then 1 else limit.value)
            && (limit.Some? && limit.value > 0 ==> |out| <= limit.value)
            && (limit.Some? && limit.value < 0 ==> |out| <= 1)
  {
  }

  function AlignedPages(size: nat, cache: Pages): Pages
    requires size > 0
  {
    map p | p in cache && p % size == 0 :: cache[p]
  }

  /** A page that does not start at a multiple of cache_size is never looked at. */
  lemma {:induction false} MisalignedPagesAreNotRead(size: nat, files: Files, cache: Pages, f: Filter, lo: int, hi: int)
    requires PagesReadable(size, cache) && PagesReadable(size, AlignedPages(size, cache))
    ensures Ascending(size, files, cache, f, lo, hi) == Ascending(size, files, AlignedPages(size, cache), f, lo, hi)
    decreases hi - lo
  {
    if lo < hi {
      MisalignedPagesAreNotRead(size, files, cache, f, lo, hi - 1);
      AlignedStart(size, hi - 1);
      assert PageFor(size, cache, hi - 1) == PageFor(size, AlignedPages(size, cache), hi - 1);
    }
  }

  lemma {:induction false} FilterCommutes(size: nat, files: Files, cache: Pages, f: Filter, lo: int, hi: int)
    requires PagesReadable(size, cache)
    ensures Ascending(size, files, cache, f, lo, hi)
            == Filtered(Ascending(size, files, cache, None, lo, hi), r => Includes(f, r))
    decreases hi - lo
  {
    if lo < hi {
      FilterCommutes(size, files, cache, f, lo, hi - 1);
      FilteredAppend(Ascending(size, files, cache, None, lo, hi - 1), Match(size, files, cache, None, hi - 1),
          r => Includes(f, r));
    }
  }

  /** After any number of crashes of a single writer, at any point, a search through the pages it left
      behind is still the plain search of the event files. */
  lemma SearchAfterCrashesIsPlain(size: nat, files: Files, cache: Pages, ls: seq<Label>, f: Filter, lo: int, hi: int)
    requires size > 0 && DiskOk(size, files, cache)
    requires PossibleRun(Opened(size, files, cache), ls) && OneWriter(Opened(size, files, cache), ls)
    ensures var t := Final(Opened(size, files, cache), ls);
            && PagesReadable(size, t.cache)
            && Ascending(size, t.files, t.cache, f, lo, hi) == Ascending(size, t.files, map[], f, lo, hi)
  {
    CrashesKeepAgreement(size, files, cache, ls);
    var t := Final(Opened(size, files, cache), ls);
    AgreeingPagesAreReadable(size, t.files, t.cache);
    PagedSearchIsPlain(size, t.files, t.cache, f, lo, hi);
  }

  /** Listing exactly the event files, besides names that are not ids, gives the id the writer uses. */
  lemma ListingGivesNextId(files: Files, listing: seq<Option<int>>, id: nat)
    requires ListsUpTo(listing, id)
    requires forall i: nat :: i in files <==> Some(i as int) in listing
    ensures id == NextId(files.Keys)
  {
    var n := NextId(files.Keys);
    if id > 0 {
      assert Some(id - 1) in listing;
      assert id - 1 in files.Keys;
    }
    if n > 0 {
      assert n - 1 in files.Keys;
      assert Some((n - 1) as int) in listing;
    }
  }
}
