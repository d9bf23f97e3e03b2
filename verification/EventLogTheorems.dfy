/** What the event log guarantees over whole runs: with concurrent writers and no crash, with crashes
    and one writer at a time, and exactly what can go wrong when the two are combined. */
module EventLogTheorems {
  import opened EventLog

  // ----- concurrent writers, no crash -----

  /** Stored files, and pages from before the stream was opened, are never overwritten with anything else. */
  lemma StepOnlyAdds(s: State, l: Label)
    requires Inv(s) && Enabled(s, l) && !l.Reopen?
    ensures Apply(s, l).mem.base == s.mem.base && Apply(s, l).mem.size == s.mem.size
    ensures forall i :: i in s.files ==> i in Apply(s, l).files && Apply(s, l).files[i] == s.files[i]
    ensures forall p :: p in s.cache ==> p in Apply(s, l).cache && Apply(s, l).cache[p] == s.cache[p]
    ensures forall p :: p in Apply(s, l).cache && p < s.mem.base ==> p in s.cache
  {
    match l
    case WriteFile(t) => assert CallOk(s.mem, s.files, s.calls[t]);
    case StorePage(t) => StoredPageIsAssigned(s, t);
    case _ =>
  }

  lemma {:induction false} RunKeepsInv(s: State, ls: seq<Label>)
    requires Inv(s) && PossibleRun(s, ls) && forall l :: l in ls ==> !l.Reopen?
    ensures Inv(Final(s, ls))
    ensures Final(s, ls).mem.base == s.mem.base && Final(s, ls).mem.size == s.mem.size
    ensures forall i :: i in s.files ==> i in Final(s, ls).files && Final(s, ls).files[i] == s.files[i]
    ensures forall p :: p in s.cache ==> p in Final(s, ls).cache && Final(s, ls).cache[p] == s.cache[p]
    ensures forall p :: p in Final(s, ls).cache && p < s.mem.base ==> p in s.cache
    decreases |ls|
  {
    if ls != [] {
      assert ls[0] in ls;
      StepKeepsInv(s, ls[0]);
      StepOnlyAdds(s, ls[0]);
      RunKeepsInv(Apply(s, ls[0]), ls[1..]);
    }
  }

  /** Every id assigned since the stream was opened has its file, and every full page is stored. */
  ghost predicate Complete(s: State) {
    && (forall i :: s.mem.base <= i < s.mem.base + |s.mem.log| ==>
          i in s.files && s.files[i] == s.mem.log[i - s.mem.base])
    && (forall j :: 0 <= j < |s.mem.pages| - 1 ==> s.mem.pages[j].first in s.cache)
  }

  /** Cache agreement under concurrent writers: in every interleaving of add_event calls, a page
      stored by them holds exactly the records assigned to its ids, in order; pages and files found at
      opening are untouched; and once no call is in flight, every id below cur_id has its file, every
      full page is stored, and no page disagrees with an event file. */
  lemma ConcurrentWritersAgree(size: nat, files: map<nat, Record>, cache: map<nat, seq<Record>>, ls: seq<Label>)
    requires size > 0 && DiskOk(size, files, cache)
    requires PossibleRun(Opened(size, files, cache), ls) && forall l :: l in ls ==> !l.Reopen?
    ensures var s := Final(Opened(size, files, cache), ls);
            && MemoryOk(s.mem) && CacheOk(s.mem, s.cache) && FilesOk(s.mem, s.files)
            && (forall i :: i in files ==> i in s.files && s.files[i] == files[i])
            && (forall p :: p in cache ==> p in s.cache && s.cache[p] == cache[p])
            && (s.calls == map[] ==> Complete(s) && DiskOk(size, s.files, s.cache))
  {
    var o := Opened(size, files, cache);
    OpenedIsOk(size, files, cache);
    RunKeepsInv(o, ls);
    var s := Final(o, ls);
    if s.calls == map[] {
      NothingInFlightIsComplete(s);
      forall i | i in s.files ensures s.files[i].id == i {
        if i < s.mem.base { FilesBelowBase(o, ls, i); }
      }
      forall p | p in s.cache ensures PageAgrees(size, s.files, p, s.cache[p]) {
        if p < s.mem.base {
          AgreementSurvivesMoreFiles(size, files, s.files, p, cache[p]);
        }
      }
    }
  }

  lemma NothingInFlightIsComplete(s: State)
    requires Inv(s) && s.calls == map[]
    ensures Complete(s)
  {
    assert forall t, i :: !Writes(s.calls, t, i);
    forall j | 0 <= j < |s.mem.pages| - 1 ensures s.mem.pages[j].first in s.cache {
      assert forall t :: !WillStore(s.mem, s.calls, t, j);
    }
  }

  lemma {:induction false} FilesBelowBase(s: State, ls: seq<Label>, i: nat)
    requires Inv(s) && PossibleRun(s, ls) && forall l :: l in ls ==> !l.Reopen?
    requires i < s.mem.base && i in Final(s, ls).files
    ensures i in s.files
    decreases |ls|
  {
    if ls != [] {
      assert ls[0] in ls;
      StepKeepsInv(s, ls[0]);
      StepOnlyAdds(s, ls[0]);
      FilesBelowBase(Apply(s, ls[0]), ls[1..], i);
      if ls[0].WriteFile? {
        assert CallOk(s.mem, s.files, s.calls[ls[0].t]);
      }
    }
  }

  /** Several calls may find the same page full and store it; all of them store the same contents. */
  lemma RepeatedStoreIsIdentical(s: State, t: nat)
    requires Inv(s) && Enabled(s, StorePage(t)) && s.mem.pages[s.calls[t].page].first in s.cache
    ensures Apply(s, StorePage(t)).cache == s.cache
  {
    StoredPageIsAssigned(s, t);
    var p := s.mem.pages[s.calls[t].page];
    assert IsAssigned(s.mem, p.first, s.cache[p.first]);
    assert s.cache[p.first] == p.items;
  }

  // ----- crashes, one writer at a time -----

  /** Calls follow one another; a crash and reopening may come at any point, also inside a call. */
  ghost predicate OneWriter(s: State, ls: seq<Label>)
    requires PossibleRun(s, ls)
    decreases |ls|
  {
    ls == [] || ((ls[0].Begin? ==> s.calls == map[]) && OneWriter(Apply(s, ls[0]), ls[1..]))
  }

  ghost predicate AtMostOne(calls: map<nat, Call>) {
    forall t, u :: t in calls && u in calls ==> t == u
  }

  ghost predicate CrashInv(s: State) {
    && Inv(s)
    && AtMostOne(s.calls)
    && DiskOk(s.mem.size, s.files, s.cache)
  }

  lemma AgreementSurvivesMoreFiles(size: nat, files: map<nat, Record>, more: map<nat, Record>, p: nat,
                                   items: seq<Record>)
    requires PageAgrees(size, files, p, items)
    requires forall i :: i in files ==> i in more && more[i] == files[i]
    ensures PageAgrees(size, more, p, items)
  {
    forall id | p <= id < p + size ensures id in more && more[id] == items[id - p] {
      assert id in files;
    }
  }

  /** The page a single writer stores has all its files. */
  lemma StoredPageAgrees(s: State, v: nat)
    requires Inv(s) && Enabled(s, StorePage(v)) && AtMostOne(s.calls)
    ensures var p := s.mem.pages[s.calls[v].page]; PageAgrees(s.mem.size, s.files, p.first, p.items)
  {
    StoredPageIsAssigned(s, v);
    var p := s.mem.pages[s.calls[v].page];
    forall id | p.first <= id < p.first + s.mem.size ensures id in s.files && s.files[id] == p.items[id - p.first] {
      assert forall t, i :: !Writes(s.calls, t, i);
      assert p.items[id - p.first] == s.mem.log[id - s.mem.base];
    }
  }

  lemma StoreKeepsDisk(s: State, v: nat)
    requires CrashInv(s) && Enabled(s, StorePage(v))
    ensures DiskOk(s.mem.size, s.files, Apply(s, StorePage(v)).cache)
  {
    StoredPageIsAssigned(s, v);
    StoredPageAgrees(s, v);
  }

  lemma WriteKeepsDisk(size: nat, files: map<nat, Record>, cache: map<nat, seq<Record>>, rec: Record)
    requires DiskOk(size, files, cache) && rec.id !in files
    ensures DiskOk(size, files[rec.id := rec], cache)
  {
    forall p | p in cache ensures PageAgrees(size, files[rec.id := rec], p, cache[p]) {
      AgreementSurvivesMoreFiles(size, files, files[rec.id := rec], p, cache[p]);
    }
  }

  lemma StepKeepsDisk(s: State, l: Label)
    requires CrashInv(s) && Enabled(s, l)
    ensures DiskOk(s.mem.size, Apply(s, l).files, Apply(s, l).cache)
    ensures forall i :: i in s.files ==> i in Apply(s, l).files && Apply(s, l).files[i] == s.files[i]
  {
    match l
    case StorePage(v) => StoreKeepsDisk(s, v);
    case WriteFile(v) =>
      assert CallOk(s.mem, s.files, s.calls[v]);
      WriteKeepsDisk(s.mem.size, s.files, s.cache, s.calls[v].rec);
    case _ =>
  }

  lemma StepKeepsOneCall(s: State, l: Label)
    requires Enabled(s, l) && AtMostOne(s.calls) && (l.Begin? ==> s.calls == map[])
    ensures AtMostOne(Apply(s, l).calls)
  {
  }

  lemma StepKeepsCrashInv(s: State, l: Label)
    requires CrashInv(s) && Enabled(s, l) && (l.Begin? ==> s.calls == map[])
    ensures CrashInv(Apply(s, l))
    ensures forall i :: i in s.files ==> i in Apply(s, l).files && Apply(s, l).files[i] == s.files[i]
  {
    StepKeepsDisk(s, l);
    StepKeepsOneCall(s, l);
    SizeIsFixed(s, l);
    if l.Reopen? {
      OpenedIsOk(s.mem.size, s.files, s.cache);
    } else {
      StepKeepsInv(s, l);
    }
  }

  lemma SizeIsFixed(s: State, l: Label)
    requires Enabled(s, l)
    ensures Apply(s, l).mem.size == s.mem.size
  {
  }

  lemma {:induction false} RunKeepsCrashInv(s: State, ls: seq<Label>)
    requires CrashInv(s) && PossibleRun(s, ls) && OneWriter(s, ls)
    ensures CrashInv(Final(s, ls)) && Final(s, ls).mem.size == s.mem.size
    ensures forall i :: i in s.files ==> i in Final(s, ls).files && Final(s, ls).files[i] == s.files[i]
    decreases |ls|
  {
    if ls != [] {
      StepKeepsCrashInv(s, ls[0]);
      SizeIsFixed(s, ls[0]);
      RunKeepsCrashInv(Apply(s, ls[0]), ls[1..]);
    }
  }

  /** Cache agreement across crashes: with one writer at a time, whatever writes the process crashes
      between and however often it is reopened, no stored page ever disagrees with an event file, an
      id about to be written is not a stored one, and no event file ever changes. */
  lemma CrashesKeepAgreement(size: nat, files: map<nat, Record>, cache: map<nat, seq<Record>>, ls: seq<Label>)
    requires size > 0 && DiskOk(size, files, cache)
    requires PossibleRun(Opened(size, files, cache), ls) && OneWriter(Opened(size, files, cache), ls)
    ensures var s := Final(Opened(size, files, cache), ls);
            && s.mem.size == size && DiskOk(size, s.files, s.cache)
            && (forall t :: Enabled(s, WriteFile(t)) ==> s.calls[t].rec.id !in s.files)
            && (forall i :: i in files ==> i in s.files && s.files[i] == files[i])
  {
    OpenedIsOk(size, files, cache);
    RunKeepsCrashInv(Opened(size, files, cache), ls);
    var s := Final(Opened(size, files, cache), ls);
    forall t | Enabled(s, WriteFile(t)) ensures s.calls[t].rec.id !in s.files {
      assert CallOk(s.mem, s.files, s.calls[t]);
    }
  }

  // ----- both at once -----

  /** A call whose file is still missing belongs to a page that another call has stored already. */
  ghost predicate PageRunsAhead(s: State, t: nat) {
    && t in s.calls && s.calls[t].phase == Assigned
    && exists p :: p in s.cache && p <= s.calls[t].rec.id < p + s.mem.size
  }

  /** Killing the process while several calls are in flight keeps cache and files in agreement exactly
      when no call in flight is still to write a file that a stored page already covers. */
  lemma CrashUnderConcurrency(s: State)
    requires Inv(s)
    requires forall i :: i in s.files ==> s.files[i].id == i
    requires forall p :: p in s.cache && p < s.mem.base ==> PageAgrees(s.mem.size, s.files, p, s.cache[p])
    ensures DiskOk(s.mem.size, Apply(s, Reopen).files, Apply(s, Reopen).cache) <==> forall t :: !PageRunsAhead(s, t)
  {
    if DiskOk(s.mem.size, s.files, s.cache) {
      forall t ensures !PageRunsAhead(s, t) {
        AgreementMeansNoneAhead(s, t);
      }
    }
    if forall t :: !PageRunsAhead(s, t) {
      forall p | p in s.cache ensures PageAgrees(s.mem.size, s.files, p, s.cache[p]) {
        if s.mem.base <= p { NoneAheadMeansAgreement(s, p); }
      }
    }
  }

  lemma AgreementMeansNoneAhead(s: State, t: nat)
    requires Inv(s) && DiskOk(s.mem.size, s.files, s.cache)
    ensures !PageRunsAhead(s, t)
  {
    forall p, id | p in s.cache && p <= id < p + s.mem.size ensures id in s.files {
      assert PageAgrees(s.mem.size, s.files, p, s.cache[p]);
    }
    if t in s.calls {
      assert CallOk(s.mem, s.files, s.calls[t]);
    }
  }

  lemma CoveredIdHasFile(s: State, p: nat, id: nat)
    requires Inv(s) && p in s.cache && s.mem.base <= p <= id < p + s.mem.size && forall t :: !PageRunsAhead(s, t)
    ensures id < s.mem.base + |s.mem.log| && id in s.files && s.files[id] == s.mem.log[id - s.mem.base]
  {
    assert IsAssigned(s.mem, p, s.cache[p]);
    forall t ensures !Writes(s.calls, t, id) {
      assert !PageRunsAhead(s, t);
    }
  }

  lemma NoneAheadMeansAgreement(s: State, p: nat)
    requires Inv(s) && p in s.cache && s.mem.base <= p && forall t :: !PageRunsAhead(s, t)
    ensures PageAgrees(s.mem.size, s.files, p, s.cache[p])
  {
    var size, files, items := s.mem.size, s.files, s.cache[p];
    assert IsAssigned(s.mem, p, items);
    forall id | p <= id < p + size ensures id in files && files[id] == items[id - p] {
      CoveredIdHasFile(s, p, id);
      assert items[id - p] == s.mem.log[id - s.mem.base];
    }
  }

  lemma {:induction false} Extend(s: State, ls: seq<Label>, l: Label)
    requires PossibleRun(s, ls) && Enabled(Final(s, ls), l)
    ensures PossibleRun(s, ls + [l]) && Final(s, ls + [l]) == Apply(Final(s, ls), l)
    decreases |ls|
  {
    if ls == [] {
      assert PossibleRun(Apply(s, l), []);
    } else {
      assert (ls + [l])[1..] == ls[1..] + [l];
      Extend(Apply(s, ls[0]), ls[1..], l);
    }
  }

  lemma NothingRun(s: State)
    ensures PossibleRun(s, []) && Final(s, []) == s
  {
  }

  /** Two calls fill a page of two, the first of them stores it, the process dies before the second
      has written its file; the reopened stream gives id 1 to another event, and from then on the page
      and the event file of id 1 disagree. */
  lemma CrashUnderConcurrencyCanDisagree() returns (ls: seq<Label>)
    ensures PossibleRun(Opened(2, map[], map[]), ls)
    ensures var s := Final(Opened(2, map[], map[]), ls);
            0 in s.cache && |s.cache[0]| == 2 && 1 in s.files && s.files[1] != s.cache[0][1]
  {
    hide PossibleRun, Final, NextId;
    var o := Opened(2, map[], map[]);
    NothingRun(o);
    assert o.mem == Memory(2, 0, [Page(0, [])], 0, []);
    var a, b, c := Record(0, "a"), Record(1, "b"), Record(1, "c");
    Extend(o, [], Begin(0, "a"));
    ls := [] + [Begin(0, "a")];
    assert [] + [a] == [a] && [Page(0, [a])] + [] == [Page(0, [a])];
    assert Append(o.mem, a).pages == [Page(0, [a])];
    Extend(o, ls, Begin(1, "b"));
    ls := ls + [Begin(1, "b")];
    assert Final(o, ls).mem.pages[0] == Page(0, [a, b]);
    Extend(o, ls, WriteFile(0));
    ls := ls + [WriteFile(0)];
    Extend(o, ls, CheckLength(0));
    ls := ls + [CheckLength(0)];
    Extend(o, ls, StorePage(0));
    ls := ls + [StorePage(0)];
    var full := Final(o, ls);
    assert full.cache == map[0 := [a, b]] && full.files == map[0 := a];
    Extend(o, ls, Reopen);
    ls := ls + [Reopen];
    assert Final(o, ls).mem.curId == 1 by {
      assert 0 in full.files.Keys;
      assert NextId(full.files.Keys) == 1;
    }
    Extend(o, ls, Begin(0, "c"));
    ls := ls + [Begin(0, "c")];
    Extend(o, ls, WriteFile(0));
    ls := ls + [WriteFile(0)];
    assert Final(o, ls).files[1] == c && Final(o, ls).cache == full.cache;
  }

  // ----- the order of the queue -----

  /** The queue has the events of all calls so far but the one in flight, id by id. */
  ghost predicate QueueOk(s: State) {
    && AtMostOne(s.calls)
    && s.mem.curId == s.mem.base + |s.queue| + (if s.calls == map[] then 0 else 1)
    && (forall i :: 0 <= i < |s.queue| ==> s.queue[i].id == s.mem.base + i)
    && (forall t :: t in s.calls ==> s.calls[t].rec.id == s.mem.base + |s.queue|)
  }

  lemma StepKeepsQueue(s: State, l: Label)
    requires QueueOk(s) && Enabled(s, l) && (l.Begin? ==> s.calls == map[])
    ensures QueueOk(Apply(s, l))
  {
    StepKeepsOneCall(s, l);
    if l.Enqueue? {
      assert Apply(s, l).calls == map[];
    } else if l.WriteFile? || l.CheckLength? || l.StorePage? {
      assert l.t in Apply(s, l).calls;
    }
  }

  lemma {:induction false} RunKeepsQueue(s: State, ls: seq<Label>)
    requires QueueOk(s) && PossibleRun(s, ls) && OneWriter(s, ls)
    ensures QueueOk(Final(s, ls))
    decreases |ls|
  {
    if ls != [] {
      StepKeepsQueue(s, ls[0]);
      RunKeepsQueue(Apply(s, ls[0]), ls[1..]);
    }
  }

  /** With one writer at a time, the queue of an opened stream has every id assigned since, in order and
      without a gap, up to the event of the call in flight. */
  lemma OneWriterQueuesInIdOrder(size: nat, files: map<nat, Record>, cache: map<nat, seq<Record>>, ls: seq<Label>)
    requires PossibleRun(Opened(size, files, cache), ls) && OneWriter(Opened(size, files, cache), ls)
    ensures var s := Final(Opened(size, files, cache), ls);
            && (forall i :: 0 <= i < |s.queue| ==> s.queue[i].id == s.mem.base + i)
            && (s.calls == map[] ==> s.mem.curId == s.mem.base + |s.queue|)
  {
    RunKeepsQueue(Opened(size, files, cache), ls);
  }
}
