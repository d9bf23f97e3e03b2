/** The event log of one conversation and its page cache, as seen by concurrent writers.

    An add_event call takes the lock once, to assign an id and to append its record to the current
    page list; the event file and the cache page are written after the lock is released, and several
    calls may hold the same page list.  Each label below is the stretch of one call between two
    writes.  A page list is identified by its position in `pages`: lists are only ever replaced by new
    ones, so a position is a reference that stays good. */
module EventLog {

  datatype Record = Record(id: nat, body: string)

  /** A write page: `first` is the value cur_id had when the list was created. */
  datatype Page = Page(first: nat, items: seq<Record>)

  datatype Phase = Assigned | Written | Full | Stored

  datatype Call = Call(rec: Record, page: nat, phase: Phase)

  /** What the lock protects.  `size` is cache_size, `base` the value of cur_id when the stream was
      opened and `log` the records assigned since. */
  datatype Memory = Memory(size: nat, curId: nat, pages: seq<Page>, base: nat, log: seq<Record>)

  /** `files` holds the event files and `cache` the page files, by first id (the page file of p is
      named p-(p+size)); `calls` are the add_event calls in flight, by thread. */
  datatype State = State(
    mem: Memory, files: map<nat, Record>, cache: map<nat, seq<Record>>, calls: map<nat, Call>, queue: seq<Record>)

  datatype Label =
    | Begin(t: nat, body: string)
    | WriteFile(t: nat)
    | CheckLength(t: nat)
    | StorePage(t: nat)
    | Enqueue(t: nat)
    | Reopen

  lemma {:induction false} MaxExists(ids: set<nat>) returns (m: nat)
    requires ids != {}
    ensures m in ids && forall i :: i in ids ==> i <= m
  {
    m :| m in ids;
    var rest := ids - {m};
    assert forall i :: i in ids ==> i == m || i in rest;
    if rest != {} {
      var n := MaxExists(rest);
      if m < n { m := n; }
    }
  }

  /** One more than the largest id, 0 without any: the id the next event gets. */
  function NextId(ids: set<nat>): (r: nat)
    ensures forall i :: i in ids ==> i < r
    ensures r > 0 ==> r - 1 in ids
  {
    if ids == {} then 0
    else
      assert exists m :: m in ids && forall i :: i in ids ==> i <= m by { var m := MaxExists(ids); }
      var m :| m in ids && forall i :: i in ids ==> i <= m;
      m + 1
  }

  /** A stream opened on files left by others: an empty write page, cur_id recomputed. */
  function Opened(size: nat, files: map<nat, Record>, cache: map<nat, seq<Record>>): State {
    var id := NextId(files.Keys);
    State(Memory(size, id, [Page(id, [])], id, []), files, cache, map[], [])
  }

  /** The locked section: the record appended to the current page, a full page replaced. */
  function Append(m: Memory, rec: Record): Memory
    requires m.pages != []
  {
    var last := |m.pages| - 1;
    var grown := m.pages[last].(items := m.pages[last].items + [rec]);
    m.(curId := m.curId + 1,
       pages := m.pages[last := grown] + (if |grown.items| == m.size then [Page(m.curId + 1, [])] else []),
       log := m.log + [rec])
  }

  predicate Enabled(s: State, l: Label) {
    match l
    case Begin(t, _) => t !in s.calls && s.mem.pages != []
    case WriteFile(t) => t in s.calls && s.calls[t].phase == Assigned
    case CheckLength(t) => t in s.calls && s.calls[t].phase == Written && s.calls[t].page < |s.mem.pages|
    case StorePage(t) => t in s.calls && s.calls[t].phase == Full && s.calls[t].page < |s.mem.pages|
                         && s.mem.pages[s.calls[t].page].items != []
    case Enqueue(t) => t in s.calls && s.calls[t].phase == Stored
    case Reopen => true
  }

  function Apply(s: State, l: Label): State
    requires Enabled(s, l)
  {
    match l
    case Begin(t, body) =>
      var rec := Record(s.mem.curId, body);
      s.(mem := Append(s.mem, rec), calls := s.calls[t := Call(rec, |s.mem.pages| - 1, Assigned)])
    case WriteFile(t) =>
      s.(files := s.files[s.calls[t].rec.id := s.calls[t].rec],
         calls := s.calls[t := s.calls[t].(phase := Written)])
    case CheckLength(t) =>
      var full := |s.mem.pages[s.calls[t].page].items| >= s.mem.size;
      s.(calls := s.calls[t := s.calls[t].(phase := if full then Full else Stored)])
    case StorePage(t) =>
      var items := s.mem.pages[s.calls[t].page].items;
      s.(cache := s.cache[items[0].id := items],
         calls := s.calls[t := s.calls[t].(phase := Stored)])
    case Enqueue(t) => s.(queue := s.queue + [s.calls[t].rec], calls := s.calls - {t})
    case Reopen => Opened(s.mem.size, s.files, s.cache)
  }

  ghost predicate PossibleRun(s: State, ls: seq<Label>)
    decreases |ls|
  {
    ls == [] || (Enabled(s, ls[0]) && PossibleRun(Apply(s, ls[0]), ls[1..]))
  }

  ghost function Final(s: State, ls: seq<Label>): State
    requires PossibleRun(s, ls)
    decreases |ls|
  {
    if ls == [] then s else Final(Apply(s, ls[0]), ls[1..])
  }

  // ----- what always holds while the process lives -----

  /** The records assigned since the stream was opened carry consecutive ids. */
  ghost predicate LogOk(m: Memory) {
    && m.size > 0
    && m.curId == m.base + |m.log|
    && (forall i :: 0 <= i < |m.log| ==> m.log[i].id == m.base + i)
  }

  /** `items` are exactly the records assigned to the ids from..from+|items|-1, in order. */
  ghost predicate IsAssigned(m: Memory, from: nat, items: seq<Record>) {
    && m.base <= from && from + |items| <= m.base + |m.log|
    && forall i :: 0 <= i < |items| ==> items[i] == m.log[from - m.base + i]
  }

  ghost predicate PageOk(m: Memory, j: nat)
    requires j < |m.pages|
  {
    var p := m.pages[j];
    && IsAssigned(m, p.first, p.items)
    && (if j + 1 < |m.pages|
        then |p.items| == m.size && m.pages[j + 1].first == p.first + m.size
        else |p.items| < m.size && p.first + |p.items| == m.curId)
  }

  /** The page lists cut the log into consecutive runs of `size`, the last one still short. */
  ghost predicate MemoryOk(m: Memory) {
    && LogOk(m) && m.pages != [] && m.pages[0].first == m.base
    && forall j :: 0 <= j < |m.pages| ==> PageOk(m, j)
  }

  ghost predicate CallOk(m: Memory, files: map<nat, Record>, c: Call) {
    && m.base <= c.rec.id < m.base + |m.log| && m.log[c.rec.id - m.base] == c.rec
    && c.page < |m.pages|
    && m.pages[c.page].first <= c.rec.id < m.pages[c.page].first + |m.pages[c.page].items|
    && (c.phase == Assigned <==> c.rec.id !in files)
    && (c.phase == Full ==> c.page + 1 < |m.pages|)
  }

  ghost predicate CallsOk(m: Memory, files: map<nat, Record>, calls: map<nat, Call>) {
    && (forall t :: t in calls ==> CallOk(m, files, calls[t]))
    && Distinct(calls)
  }

  ghost predicate Distinct(calls: map<nat, Call>) {
    forall t, u :: t in calls && u in calls && calls[t].rec.id == calls[u].rec.id ==> t == u
  }

  /** Every file written since the stream was opened holds what was assigned to its id. */
  ghost predicate FilesOk(m: Memory, files: map<nat, Record>) {
    forall i :: i in files ==> i < m.base + |m.log| && (m.base <= i ==> files[i] == m.log[i - m.base])
  }

  /** Every page stored since then holds exactly the records of its ids, in order. */
  ghost predicate CacheOk(m: Memory, cache: map<nat, seq<Record>>) {
    forall p :: p in cache && m.base <= p ==> |cache[p]| == m.size && IsAssigned(m, p, cache[p])
  }

  ghost predicate Writes(calls: map<nat, Call>, t: nat, i: nat) {
    t in calls && calls[t].rec.id == i && calls[t].phase == Assigned
  }

  /** Thread `t` holds the last record of page `j` and has not yet stored the page. */
  ghost predicate WillStore(m: Memory, calls: map<nat, Call>, t: nat, j: nat)
    requires j < |m.pages|
  {
    && t in calls && calls[t].page == j && calls[t].phase != Stored
    && calls[t].rec.id + 1 == m.pages[j].first + m.size
  }

  /** Nothing is forgotten: a missing file or page has a call in flight that will write it. */
  ghost predicate NothingLost(s: State) {
    && (forall i :: s.mem.base <= i < s.mem.curId && i !in s.files ==> exists t :: Writes(s.calls, t, i))
    && (forall j :: 0 <= j < |s.mem.pages| - 1 && s.mem.pages[j].first !in s.cache ==>
          exists t :: WillStore(s.mem, s.calls, t, j))
  }

  ghost predicate Inv(s: State) {
    && MemoryOk(s.mem) && CallsOk(s.mem, s.files, s.calls)
    && FilesOk(s.mem, s.files) && CacheOk(s.mem, s.cache) && NothingLost(s)
  }

  /** Every stored page lies wholly among the stored files and agrees with them. */
  ghost predicate DiskOk(size: nat, files: map<nat, Record>, cache: map<nat, seq<Record>>) {
    && (forall i :: i in files ==> files[i].id == i)
    && (forall p :: p in cache ==> PageAgrees(size, files, p, cache[p]))
  }

  ghost predicate PageAgrees(size: nat, files: map<nat, Record>, p: nat, items: seq<Record>) {
    |items| == size && forall id :: p <= id < p + size ==> id in files && files[id] == items[id - p]
  }

  lemma PageIsBelowNextId(size: nat, files: map<nat, Record>, cache: map<nat, seq<Record>>, p: nat)
    requires size > 0 && DiskOk(size, files, cache) && p in cache
    ensures p < NextId(files.Keys)
  {
    assert PageAgrees(size, files, p, cache[p]);
    assert p in files && p in files.Keys;
  }

  lemma OpenedIsOk(size: nat, files: map<nat, Record>, cache: map<nat, seq<Record>>)
    requires size > 0 && DiskOk(size, files, cache)
    ensures Inv(Opened(size, files, cache))
  {
    var o := Opened(size, files, cache);
    assert MemoryOk(o.mem) && CallsOk(o.mem, o.files, o.calls) && NothingLost(o);
    forall p | p in cache ensures p < o.mem.base {
      PageIsBelowNextId(size, files, cache, p);
    }
    assert forall i :: i in files ==> i in files.Keys;
  }

  // ----- the steps keep it -----

  lemma AppendKeepsAssigned(m: Memory, rec: Record, from: nat, items: seq<Record>)
    requires m.pages != [] && IsAssigned(m, from, items)
    ensures IsAssigned(Append(m, rec), from, items)
  {
  }

  lemma AppendKeepsMemory(m: Memory, rec: Record)
    requires MemoryOk(m) && rec.id == m.curId
    ensures MemoryOk(Append(m, rec))
  {
    var t := Append(m, rec);
    var last := |m.pages| - 1;
    assert PageOk(m, last);
    forall j | 0 <= j < |t.pages| ensures PageOk(t, j) {
      if j < last {
        assert PageOk(m, j);
        AppendKeepsAssigned(m, rec, m.pages[j].first, m.pages[j].items);
      }
    }
  }

  lemma AppendKeepsCall(m: Memory, rec: Record, files: map<nat, Record>, c: Call)
    requires MemoryOk(m) && rec.id == m.curId && CallOk(m, files, c)
    ensures CallOk(Append(m, rec), files, c)
  {
  }

  lemma BeginKeepsInv(s: State, l: Label)
    requires Inv(s) && l.Begin? && Enabled(s, l)
    ensures Inv(Apply(s, l))
  {
    var t := Apply(s, l);
    var rec := Record(s.mem.curId, l.body);
    AppendKeepsMemory(s.mem, rec);
    BeginKeepsCalls(s, l);
    BeginLosesNothing(s, l);
    assert FilesOk(t.mem, t.files);
    forall p | p in t.cache && t.mem.base <= p ensures IsAssigned(t.mem, p, t.cache[p]) {
      AppendKeepsAssigned(s.mem, rec, p, s.cache[p]);
    }
  }

  lemma BeginKeepsCalls(s: State, l: Label)
    requires MemoryOk(s.mem) && CallsOk(s.mem, s.files, s.calls) && FilesOk(s.mem, s.files)
    requires l.Begin? && Enabled(s, l)
    ensures CallsOk(Apply(s, l).mem, s.files, Apply(s, l).calls)
  {
    var t := Apply(s, l);
    var rec := Record(s.mem.curId, l.body);
    assert PageOk(s.mem, |s.mem.pages| - 1);
    forall u | u in t.calls ensures CallOk(t.mem, t.files, t.calls[u]) {
      if u != l.t {
        AppendKeepsCall(s.mem, rec, s.files, s.calls[u]);
      }
    }
    assert forall u :: u in s.calls ==> CallOk(s.mem, s.files, s.calls[u]);
  }

  lemma BeginLosesNothing(s: State, l: Label)
    requires MemoryOk(s.mem) && NothingLost(s) && l.Begin? && Enabled(s, l)
    ensures NothingLost(Apply(s, l))
  {
    var t := Apply(s, l);
    var last := |s.mem.pages| - 1;
    assert PageOk(s.mem, last);
    forall i | t.mem.base <= i < t.mem.curId && i !in t.files ensures exists u :: Writes(t.calls, u, i) {
      if i == s.mem.curId {
        assert Writes(t.calls, l.t, i);
      } else {
        var u :| Writes(s.calls, u, i);
        assert Writes(t.calls, u, i);
      }
    }
    forall j | 0 <= j < |t.mem.pages| - 1 && t.mem.pages[j].first !in t.cache
      ensures exists u :: WillStore(t.mem, t.calls, u, j)
    {
      if j < last {
        var u :| WillStore(s.mem, s.calls, u, j);
        assert WillStore(t.mem, t.calls, u, j);
      } else {
        assert WillStore(t.mem, t.calls, l.t, j);
      }
    }
  }

  /** `after` is `before` with the call of `v` in another phase, or gone. */
  ghost predicate Progressed(before: map<nat, Call>, after: map<nat, Call>, v: nat) {
    && v in before && after.Keys <= before.Keys
    && (forall u :: u in after ==> after[u].rec == before[u].rec && after[u].page == before[u].page)
    && (forall u :: u in before && u != v ==> u in after && after[u] == before[u])
  }

  lemma NewPhaseIsProgress(calls: map<nat, Call>, v: nat, phase: Phase)
    requires v in calls
    ensures Progressed(calls, calls[v := calls[v].(phase := phase)], v)
  {
  }

  lemma ProgressKeepsDistinct(before: map<nat, Call>, after: map<nat, Call>, v: nat)
    requires Distinct(before) && Progressed(before, after, v)
    ensures Distinct(after)
  {
  }

  /** A step of one call loses nothing as long as what it stops promising is stored. */
  lemma ProgressLosesNothing(s: State, t: State, v: nat)
    requires NothingLost(s) && t.mem == s.mem && Progressed(s.calls, t.calls, v)
    requires s.files.Keys <= t.files.Keys && s.cache.Keys <= t.cache.Keys
    requires forall i :: Writes(s.calls, v, i) ==> i in t.files
    requires forall j :: 0 <= j < |s.mem.pages| - 1 && WillStore(s.mem, s.calls, v, j) ==>
               s.mem.pages[j].first in t.cache || WillStore(t.mem, t.calls, v, j)
    ensures NothingLost(t)
  {
    forall i | t.mem.base <= i < t.mem.curId && i !in t.files ensures exists u :: Writes(t.calls, u, i) {
      var u :| Writes(s.calls, u, i);
      assert Writes(t.calls, u, i);
    }
    forall j | 0 <= j < |t.mem.pages| - 1 && t.mem.pages[j].first !in t.cache
      ensures exists u :: WillStore(t.mem, t.calls, u, j)
    {
      var u :| WillStore(s.mem, s.calls, u, j);
      assert WillStore(t.mem, t.calls, u, j);
    }
  }

  lemma WrittenFilesOk(m: Memory, files: map<nat, Record>, rec: Record)
    requires FilesOk(m, files) && m.base <= rec.id < m.base + |m.log| && m.log[rec.id - m.base] == rec
    ensures FilesOk(m, files[rec.id := rec])
  {
  }

  lemma WrittenCallsOk(m: Memory, files: map<nat, Record>, calls: map<nat, Call>, v: nat)
    requires CallsOk(m, files, calls) && v in calls && calls[v].phase == Assigned
    ensures CallsOk(m, files[calls[v].rec.id := calls[v].rec], calls[v := calls[v].(phase := Written)])
  {
    var after := calls[v := calls[v].(phase := Written)];
    forall u | u in after ensures CallOk(m, files[calls[v].rec.id := calls[v].rec], after[u]) {
      assert CallOk(m, files, calls[u]);
    }
    ProgressKeepsDistinct(calls, after, v);
  }

  lemma CallIsOk(m: Memory, files: map<nat, Record>, calls: map<nat, Call>, t: nat)
    requires MemoryOk(m) && CallsOk(m, files, calls) && t in calls
    ensures CallOk(m, files, calls[t]) && PageOk(m, calls[t].page)
  {
    assert CallOk(m, files, calls[t]);
  }

  lemma WriteKeepsInv(s: State, l: Label)
    requires Inv(s) && l.WriteFile? && Enabled(s, l)
    ensures Inv(Apply(s, l))
  {
    hide MemoryOk, CallsOk, FilesOk, CacheOk, NothingLost, PageOk, Progressed;
    var t := Apply(s, l);
    var c := s.calls[l.t];
    CallIsOk(s.mem, s.files, s.calls, l.t);
    WrittenCallsOk(s.mem, s.files, s.calls, l.t);
    WrittenFilesOk(s.mem, s.files, c.rec);
    NewPhaseIsProgress(s.calls, l.t, Written);
    ProgressLosesNothing(s, t, l.t);
  }

  lemma CallsStayOk(m: Memory, files: map<nat, Record>, before: map<nat, Call>, after: map<nat, Call>, v: nat)
    requires CallsOk(m, files, before) && Progressed(before, after, v) && before[v].phase != Assigned
    requires v in after ==> after[v].phase != Assigned && (after[v].phase == Full ==> after[v].page + 1 < |m.pages|)
    ensures CallsOk(m, files, after)
  {
    forall u | u in after ensures CallOk(m, files, after[u]) {
      assert CallOk(m, files, before[u]);
    }
    ProgressKeepsDistinct(before, after, v);
  }

  lemma CheckKeepsInv(s: State, l: Label)
    requires Inv(s) && l.CheckLength? && Enabled(s, l)
    ensures Inv(Apply(s, l))
  {
    hide MemoryOk, CallsOk, FilesOk, CacheOk, NothingLost, Progressed;
    var c, t := s.calls[l.t], Apply(s, l);
    CallIsOk(s.mem, s.files, s.calls, l.t);
    NewPhaseIsProgress(s.calls, l.t, t.calls[l.t].phase);
    CallsStayOk(s.mem, s.files, s.calls, t.calls, l.t);
    ProgressLosesNothing(s, t, l.t);
  }

  /** The page a call stores: full, and filed under the first of its ids. */
  lemma StoredPageIsAssigned(s: State, t: nat)
    requires MemoryOk(s.mem) && CallsOk(s.mem, s.files, s.calls) && Enabled(s, StorePage(t))
    ensures var p := s.mem.pages[s.calls[t].page];
            && p.items[0].id == p.first && |p.items| == s.mem.size && IsAssigned(s.mem, p.first, p.items)
  {
    assert CallOk(s.mem, s.files, s.calls[t]) && PageOk(s.mem, s.calls[t].page);
  }

  lemma StoredCacheOk(m: Memory, cache: map<nat, seq<Record>>, p: nat, items: seq<Record>)
    requires CacheOk(m, cache) && |items| == m.size && IsAssigned(m, p, items)
    ensures CacheOk(m, cache[p := items])
  {
  }

  lemma StoreKeepsInv(s: State, l: Label)
    requires Inv(s) && l.StorePage? && Enabled(s, l)
    ensures Inv(Apply(s, l))
  {
    var t := Apply(s, l);
    StoredPageIsAssigned(s, l.t);
    StoredCacheOk(s.mem, s.cache, s.mem.pages[s.calls[l.t].page].first, s.mem.pages[s.calls[l.t].page].items);
    NewPhaseIsProgress(s.calls, l.t, Stored);
    CallsStayOk(s.mem, s.files, s.calls, t.calls, l.t);
    ProgressLosesNothing(s, t, l.t);
  }

  lemma StepKeepsInv(s: State, l: Label)
    requires Inv(s) && Enabled(s, l) && !l.Reopen?
    ensures Inv(Apply(s, l))
  {
    match l
    case Begin(_, _) => BeginKeepsInv(s, l);
    case WriteFile(_) => WriteKeepsInv(s, l);
    case CheckLength(_) => CheckKeepsInv(s, l);
    case StorePage(_) => StoreKeepsInv(s, l);
    case Enqueue(t) =>
      CallsStayOk(s.mem, s.files, s.calls, Apply(s, l).calls, t);
      ProgressLosesNothing(s, Apply(s, l), t);
  }
}
