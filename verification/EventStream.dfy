/** The event stream as the object its threads share.  A method below is one stretch of an add_event
    call between two writes; AddEvent is a whole call that nobody interrupts. */
module EventStream {
  import opened EventLog
  import opened EventLogTheorems

  const INVALID_ID := -1

  class EventStream {
    const size: nat
    var curId: nat
    /** Every page list ever created; `writePage` says which of them is _write_page_cache. */
    var pages: seq<Page>
    var writePage: nat
    var files: map<nat, Record>
    var cache: map<nat, seq<Record>>
    var queue: seq<Record>
    ghost var calls: map<nat, Call>
    ghost var base: nat
    ghost var log: seq<Record>

    constructor (size: nat, files: map<nat, Record>, cache: map<nat, seq<Record>>)
      requires size > 0 && DiskOk(size, files, cache)
      ensures Valid() && View() == Opened(size, files, cache)
    {
      this.size := size;
      var id := NextId(files.Keys);
      curId, pages, writePage := id, [Page(id, [])], 0;
      this.files, this.cache, queue := files, cache, [];
      calls, base, log := map[], id, [];
      new;
      OpenedIsOk(size, files, cache);
    }

    ghost function View(): State
      reads this
    {
      State(Memory(size, curId, pages, base, log), files, cache, calls, queue)
    }

    /** Locally consistent; what the shared state as a whole keeps is Inv(View()), which every step
        named below keeps by StepKeepsInv. */
    ghost predicate Valid()
      reads this
    {
      size > 0 && pages != [] && writePage == |pages| - 1
    }

    /** What happens under the lock: the step `Begin`. */
    method TakeId(ghost t: nat, body: string) returns (rec: Record, page: nat)
      requires Valid() && t !in calls
      modifies this`curId, this`pages, this`writePage, this`calls, this`log
      ensures Valid() && View() == Apply(old(View()), Begin(t, body))
      ensures t in calls && calls[t] == Call(rec, page, Assigned)
    {
      rec, page := Record(curId, body), writePage;
      curId := curId + 1;
      pages := pages[page := pages[page].(items := pages[page].items + [rec])];
      if |pages[page].items| == size {
        pages := pages + [Page(curId, [])];
        writePage := |pages| - 1;
      }
      calls := calls[t := Call(rec, page, Assigned)];
      log := log + [rec];
      assert pages == Append(old(View()).mem, rec).pages;
    }

    /** The step `WriteFile`. */
    method WriteEventFile(ghost t: nat, rec: Record)
      requires Valid() && Enabled(View(), WriteFile(t)) && calls[t].rec == rec
      modifies this`files, this`calls
      ensures Valid() && View() == Apply(old(View()), WriteFile(t))
    {
      files := files[rec.id := rec];
      calls := calls[t := calls[t].(phase := Written)];
    }

    /** _store_cache_page up to its length check: the step `CheckLength`. */
    method PageIsFull(ghost t: nat, page: nat) returns (full: bool)
      requires Valid() && Enabled(View(), CheckLength(t)) && calls[t].page == page
      modifies this`calls
      ensures Valid() && View() == Apply(old(View()), CheckLength(t))
      ensures full <==> calls[t].phase == Full
    {
      full := |pages[page].items| >= size;
      calls := calls[t := calls[t].(phase := if full then Full else Stored)];
    }

    /** The rest of _store_cache_page: the step `StorePage`. */
    method WriteCachePage(ghost t: nat, page: nat)
      requires Valid() && Enabled(View(), StorePage(t)) && calls[t].page == page
      modifies this`cache, this`calls
      ensures Valid() && View() == Apply(old(View()), StorePage(t))
    {
      cache := cache[pages[page].items[0].id := pages[page].items];
      calls := calls[t := calls[t].(phase := Stored)];
    }

    /** The step `Enqueue`. */
    method PutOnQueue(ghost t: nat, rec: Record)
      requires Valid() && Enabled(View(), Enqueue(t)) && calls[t].rec == rec
      modifies this`queue, this`calls
      ensures Valid() && View() == Apply(old(View()), Enqueue(t))
    {
      queue := queue + [rec];
      calls := calls - {t};
    }

    /** A whole add_event call.  An event that already carries an id is refused. */
    method AddEvent(id: int, body: string) returns (ok: bool)
      requires Valid() && calls == map[]
      modifies this
      ensures Valid() && ok == (id == -1)
      ensures View() == if ok then Uninterrupted(old(View()), body) else old(View())
    {
      if id != INVALID_ID {
        return false;
      }
      CheckedShape(View(), body);
      var rec, page := TakeId(0, body);
      WriteEventFile(0, rec);
      var full := PageIsFull(0, page);
      if full {
        WriteCachePage(0, page);
      }
      PutOnQueue(0, rec);
      ok := true;
    }
  }

  // ----- one call, uninterrupted -----

  /** The state after the id is taken, the file written and the length checked. */
  ghost function Checked(s: State, body: string): State
    requires s.calls == map[] && s.mem.pages != []
  {
    Apply(Apply(Apply(s, Begin(0, body)), WriteFile(0)), CheckLength(0))
  }

  lemma CheckedShape(s: State, body: string)
    requires s.calls == map[] && s.mem.pages != []
    ensures var rec, last := Record(s.mem.curId, body), |s.mem.pages| - 1;
            var items := s.mem.pages[last].items + [rec];
            && Append(s.mem, rec).pages[last] == Page(s.mem.pages[last].first, items)
            && Checked(s, body) == State(Append(s.mem, rec), s.files[rec.id := rec], s.cache,
                                         map[0 := Call(rec, last, if |items| >= s.mem.size then Full else Stored)],
                                             s.queue)
  {
  }

  /** The steps of one call, one after the other. */
  ghost function Uninterrupted(s: State, body: string): State
    requires s.calls == map[] && s.mem.pages != []
  {
    CheckedShape(s, body);
    var c := Checked(s, body);
    Apply(if c.calls[0].phase == Full then Apply(c, StorePage(0)) else c, Enqueue(0))
  }

  lemma WriteAndCheckKeepInv(b: State)
    requires Inv(b) && Enabled(b, WriteFile(0))
    ensures Enabled(Apply(b, WriteFile(0)), CheckLength(0))
    ensures Inv(Apply(Apply(b, WriteFile(0)), CheckLength(0)))
  {
    assert CallOk(b.mem, b.files, b.calls[0]);
    var w := Apply(b, WriteFile(0));
    StepKeepsInv(b, WriteFile(0));
    StepKeepsInv(w, CheckLength(0));
  }

  lemma CheckedIsInv(s: State, body: string)
    requires Inv(s) && s.calls == map[]
    ensures Inv(Checked(s, body))
  {
    StepKeepsInv(s, Begin(0, body));
    WriteAndCheckKeepInv(Apply(s, Begin(0, body)));
  }

  lemma CallKeepsInv(s: State, body: string)
    requires Inv(s) && s.calls == map[]
    ensures Inv(Uninterrupted(s, body))
  {
    CheckedIsInv(s, body);
    CheckedShape(s, body);
    CheckedKeepsInv(Checked(s, body));
  }

  lemma CheckedKeepsInv(c: State)
    requires Inv(c) && c.calls.Keys == {0} && c.calls[0].page < |c.mem.pages|
    requires c.mem.pages[c.calls[0].page].items != [] && (c.calls[0].phase == Full || c.calls[0].phase == Stored)
    ensures Inv(Apply(if c.calls[0].phase == Full then Apply(c, StorePage(0)) else c, Enqueue(0)))
  {
    if c.calls[0].phase == Full {
      StepKeepsInv(c, StorePage(0));
      StepKeepsInv(Apply(c, StorePage(0)), Enqueue(0));
    } else {
      StepKeepsInv(c, Enqueue(0));
    }
  }

  /** What one uninterrupted call adds: the next id, its file, a place in the queue and, when it fills
      a page, that page in the cache. */
  lemma CallEffect(s: State, body: string)
    requires MemoryOk(s.mem) && s.calls == map[]
    ensures var r, rec := Uninterrupted(s, body), Record(s.mem.curId, body);
            var last := s.mem.pages[|s.mem.pages| - 1];
            && r.calls == map[]
            && r.mem.curId == s.mem.curId + 1 && r.mem.log == s.mem.log + [rec]
            && r.files == s.files[rec.id := rec] && r.queue == s.queue + [rec]
            && r.cache == if |last.items| + 1 == s.mem.size then s.cache[last.first := last.items + [rec]] else s.cache
  {
    var last := |s.mem.pages| - 1;
    assert PageOk(s.mem, last);
    CheckedShape(s, body);
    if s.mem.pages[last].items != [] {
      assert s.mem.pages[last].items[0] == s.mem.log[s.mem.pages[last].first - s.mem.base];
    }
  }
}
