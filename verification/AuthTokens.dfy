/** Concurrent token loads on one row: the row is locked from the read to the commit, and the identity
    provider spends a refresh token when it is asked for new tokens. */
module AuthTokens {
  import opened Util

  datatype Tokens = Tokens(access: string, refresh: string, accessExpires: int, refreshExpires: int)

  const MARGIN := 14400

  /** An expiry of 0 means never. */
  predicate AccessExpired(t: Tokens, now: int) {
    t.accessExpires != 0 && t.accessExpires < now + MARGIN
  }

  predicate RefreshExpired(t: Tokens, now: int) {
    t.refreshExpires != 0 && t.refreshExpires < now
  }

  datatype Outcome = Returned(tokens: Option<Tokens>) | Raised

  /** One call of load_tokens.  `checks`: it was given a callback that may refresh. */
  datatype Call =
    | Waiting(checks: bool)
    | Locked(checks: bool, read: Tokens)
    | Refreshed(read: Tokens, new_: Tokens)
    | Done(outcome: Outcome)

  /** `spent` counts what the provider was given, `lost` the refreshes whose reply never reached the row,
      `issued` every refresh token seen so far. */
  datatype State = State(row: Option<Tokens>, lock: Option<nat>, calls: seq<Call>,
                         spent: multiset<string>, lost: multiset<string>, issued: set<string>)

  datatype Label =
    | Begin(checks: bool)
    | Lock(k: nat)
    | Keep(k: nat, now: int)
    | Expired(k: nat, now: int)
    | Refresh(k: nat, now: int, new_: Tokens)
    | ProviderFails(k: nat, now: int, consumed: bool)
    | Commit(k: nat)
    | Abort(k: nat)
    | Store(tokens: Tokens)

  predicate IsLocked(s: State, k: nat) {
    k < |s.calls| && s.calls[k].Locked?
  }

  predicate Asks(s: State, k: nat, now: int) {
    IsLocked(s, k) && s.calls[k].checks && AccessExpired(s.calls[k].read, now)
  }

  /** The provider and the log-in hand out refresh tokens never seen before. */
  predicate Enabled(s: State, l: Label) {
    match l
    case Begin(_) => true
    case Lock(k) => k < |s.calls| && s.calls[k].Waiting? && (s.row.None? || s.lock.None?)
    case Keep(k, now) => IsLocked(s, k) && !Asks(s, k, now)
    case Expired(k, now) => Asks(s, k, now) && RefreshExpired(s.calls[k].read, now)
    case Refresh(k, now, new_) => Asks(s, k, now) && !RefreshExpired(s.calls[k].read, now) && new_.refresh !in s.issued
    case ProviderFails(k, now, _) => Asks(s, k, now) && !RefreshExpired(s.calls[k].read, now)
    case Commit(k) => k < |s.calls| && s.calls[k].Refreshed?
    case Abort(k) => k < |s.calls| && s.calls[k].Refreshed?
    case Store(tokens) => s.lock.None? && tokens.refresh !in s.issued
  }

  function Finish(s: State, k: nat, outcome: Outcome): State
    requires k < |s.calls|
  {
    s.(lock := None, calls := s.calls[k := Done(outcome)])
  }

  function Apply(s: State, l: Label): State
    requires Enabled(s, l)
  {
    match l
    case Begin(checks) => s.(calls := s.calls + [Waiting(checks)])
    case Lock(k) =>
      // a missing row cannot be locked
      if s.row.None? then s.(calls := s.calls[k := Done(Returned(None))])
      else s.(lock := Some(k), calls := s.calls[k := Locked(s.calls[k].checks, s.row.value)])
    case Keep(k, now) => Finish(s, k, Returned(Some(s.calls[k].read)))
    case Expired(k, now) => Finish(s, k, Raised)
    case Refresh(k, now, new_) =>
      s.(calls := s.calls[k := Refreshed(s.calls[k].read, new_)],
         spent := s.spent + multiset{s.calls[k].read.refresh}, issued := s.issued + {new_.refresh})
    case ProviderFails(k, now, consumed) =>
      var t := Finish(s, k, Raised);
      var token := multiset{s.calls[k].read.refresh};
      if consumed then t.(spent := s.spent + token, lost := s.lost + token) else t
    case Commit(k) => Finish(s, k, Returned(Some(s.calls[k].new_))).(row := Some(s.calls[k].new_))
    case Abort(k) => Finish(s, k, Raised).(lost := s.lost + multiset{s.calls[k].read.refresh})
    case Store(tokens) => s.(row := Some(tokens), issued := s.issued + {tokens.refresh})
  }

  ghost predicate PossibleRun(s: State, ls: seq<Label>)
    decreases |ls|
  {
    ls == [] || (Enabled(s, ls[0]) && PossibleRun(Apply(s, ls[0]), ls[1..]))
  }

  ghost function Final(s: State, ls: seq<Label>): State
    requires PossibleRun(s, ls)
    decreases |ls|
  {
    if ls == [] then s else Final(Apply(s, ls[0]), ls[1..])
  }

  /** A database before any call, holding at most one row. */
  ghost predicate Initial(s: State) {
    && s.lock.None? && s.calls == [] && s.spent == multiset{} && s.lost == multiset{}
    && (s.row.Some? ==> s.row.value.refresh in s.issued)
  }

  // ----- the invariant -----

  predicate HoldsLock(c: Call) {
    c.Locked? || c.Refreshed?
  }

  /** Whoever is past the read holds the lock, and the row is still what it read. */
  ghost predicate LockOk(s: State) {
    && (forall k :: 0 <= k < |s.calls| && HoldsLock(s.calls[k]) ==> s.lock == Some(k) && s.row == Some(s.calls[k].read))
    && (s.lock.Some? ==> s.lock.value < |s.calls| && HoldsLock(s.calls[s.lock.value]))
  }

  /** The refresh token of the row, unless its successor is already on the way. */
  ghost predicate IsUnspent(s: State, token: string) {
    && s.row.Some? && s.row.value.refresh == token
    && !(s.lock.Some? && s.lock.value < |s.calls| && s.calls[s.lock.value].Refreshed?)
  }

  ghost predicate SpentOk(s: State) {
    && (forall t :: s.lost[t] <= s.spent[t] <= s.lost[t] + (if IsUnspent(s, t) then 0 else 1))
    && (forall t :: t !in s.issued ==> s.spent[t] == 0)
    && (s.row.Some? ==> s.row.value.refresh in s.issued)
    && (forall k :: 0 <= k < |s.calls| && s.calls[k].Refreshed? ==>
          && s.calls[k].new_.refresh in s.issued && s.spent[s.calls[k].new_.refresh] == 0
          && s.spent[s.calls[k].read.refresh] == s.lost[s.calls[k].read.refresh] + 1)
  }

  ghost predicate Inv(s: State) {
    LockOk(s) && SpentOk(s)
  }

  lemma StepKeepsLock(s: State, l: Label)
    requires LockOk(s) && Enabled(s, l)
    ensures LockOk(Apply(s, l))
  {
  }

  lemma RefreshKeepsSpent(s: State, k: nat, now: int, new_: Tokens)
    requires Inv(s) && Enabled(s, Refresh(k, now, new_))
    ensures SpentOk(Apply(s, Refresh(k, now, new_)))
  {
    var t := Apply(s, Refresh(k, now, new_));
    assert IsUnspent(s, s.calls[k].read.refresh);
    forall token ensures t.lost[token] <= t.spent[token] <= t.lost[token] + (if IsUnspent(t, token) then 0 else 1) {
      assert s.lost[token] <= s.spent[token] <= s.lost[token] + (if IsUnspent(s, token) then 0 else 1);
    }
  }

  /** A call that has not refreshed ends without a change to the row, whether or not the provider took
      its token. */
  lemma FinishKeepsSpent(s: State, k: nat, outcome: Outcome)
    requires Inv(s) && IsLocked(s, k)
    ensures var token := multiset{s.calls[k].read.refresh}; var t := Finish(s, k, outcome);
            SpentOk(t) && SpentOk(t.(spent := s.spent + token, lost := s.lost + token))
  {
    forall x ensures s.lost[x] <= s.spent[x] <= s.lost[x] + (if IsUnspent(s, x) then 0 else 1) {
    }
    assert IsUnspent(s, s.calls[k].read.refresh);
  }

  lemma AbortKeepsSpent(s: State, k: nat)
    requires Inv(s) && Enabled(s, Abort(k))
    ensures SpentOk(Apply(s, Abort(k)))
  {
    var t := Apply(s, Abort(k));
    forall x ensures t.lost[x] <= t.spent[x] <= t.lost[x] + (if IsUnspent(t, x) then 0 else 1) {
      assert s.lost[x] <= s.spent[x] <= s.lost[x] + (if IsUnspent(s, x) then 0 else 1);
    }
  }

  lemma CommitKeepsSpent(s: State, k: nat)
    requires Inv(s) && Enabled(s, Commit(k))
    ensures SpentOk(Apply(s, Commit(k)))
  {
    var t := Apply(s, Commit(k));
    forall token ensures t.lost[token] <= t.spent[token] <= t.lost[token] + (if IsUnspent(t, token) then 0 else 1) {
      assert s.lost[token] <= s.spent[token] <= s.lost[token] + (if IsUnspent(s, token) then 0 else 1);
    }
  }

  lemma StoreKeepsSpent(s: State, tokens: Tokens)
    requires Inv(s) && Enabled(s, Store(tokens))
    ensures SpentOk(Apply(s, Store(tokens)))
  {
    var t := Apply(s, Store(tokens));
    forall token ensures t.lost[token] <= t.spent[token] <= t.lost[token] + (if IsUnspent(t, token) then 0 else 1) {
      assert s.lost[token] <= s.spent[token] <= s.lost[token] + (if IsUnspent(s, token) then 0 else 1);
    }
  }

  lemma EntryKeepsSpent(s: State, l: Label)
    requires Inv(s) && Enabled(s, l) && (l.Begin? || l.Lock?)
    ensures SpentOk(Apply(s, l))
  {
    var t := Apply(s, l);
    forall token ensures IsUnspent(t, token) <==> IsUnspent(s, token) {
    }
  }

  lemma StepKeepsSpent(s: State, l: Label)
    requires Inv(s) && Enabled(s, l)
    ensures SpentOk(Apply(s, l))
  {
    match l
    case Begin(_) => EntryKeepsSpent(s, l);
    case Lock(_) => EntryKeepsSpent(s, l);
    case Keep(k, _) => FinishKeepsSpent(s, k, Returned(Some(s.calls[k].read)));
    case Expired(k, _) => FinishKeepsSpent(s, k, Raised);
    case Refresh(k, now, new_) => RefreshKeepsSpent(s, k, now, new_);
    case ProviderFails(k, _, _) => FinishKeepsSpent(s, k, Raised);
    case Commit(k) => CommitKeepsSpent(s, k);
    case Abort(k) => AbortKeepsSpent(s, k);
    case Store(tokens) => StoreKeepsSpent(s, tokens);
  }

  lemma {:induction false} RunKeepsInv(s: State, ls: seq<Label>)
    requires Inv(s) && PossibleRun(s, ls)
    ensures Inv(Final(s, ls))
    decreases |ls|
  {
    if ls != [] {
      StepKeepsLock(s, ls[0]);
      StepKeepsSpent(s, ls[0]);
      RunKeepsInv(Apply(s, ls[0]), ls[1..]);
    }
  }

  /** Does this step lose a refreshed token: does the provider use it up without the row ever seeing the
      reply? */
  predicate Loses(l: Label) {
    l.Abort? || (l.ProviderFails? && l.consumed)
  }

  /** How many steps of a run lose one. */
  function Losses(ls: seq<Label>): nat {
    if ls == [] then 0 else (if Loses(ls[0]) then 1 else 0) + Losses(ls[1..])
  }

  lemma {:induction false} LostIsAtMostLosses(s: State, ls: seq<Label>, token: string)
    requires PossibleRun(s, ls)
    ensures Final(s, ls).lost[token] <= s.lost[token] + Losses(ls)
    decreases |ls|
  {
    if ls != [] {
      LostIsAtMostLosses(Apply(s, ls[0]), ls[1..], token);
    }
  }

  /** In every interleaving, a refresh token is spent as often as its refresh was lost, or once more; and
      exactly as often while it is the row's token and no refresh of it is on the way. */
  lemma SpentOncePerLoss(s: State, ls: seq<Label>, token: string)
    requires Initial(s) && PossibleRun(s, ls)
    ensures var t := Final(s, ls);
            && t.lost[token] <= t.spent[token] <= t.lost[token] + 1
            && (IsUnspent(t, token) ==> t.spent[token] == t.lost[token])
  {
    RunKeepsInv(s, ls);
  }

  /** Single refresh per token: when every refresh is committed, none is spent twice. */
  lemma SingleRefreshPerToken(s: State, ls: seq<Label>, token: string)
    requires Initial(s) && PossibleRun(s, ls) && Losses(ls) == 0
    ensures Final(s, ls).spent[token] <= 1
  {
    SpentOncePerLoss(s, ls, token);
    LostIsAtMostLosses(s, ls, token);
  }

  lemma Prepend(s: State, l: Label, t: State, ls: seq<Label>)
    requires Enabled(s, l) && t == Apply(s, l) && PossibleRun(t, ls)
    ensures PossibleRun(s, [l] + ls) && Final(s, [l] + ls) == Final(t, ls)
  {
    assert ([l] + ls)[1..] == ls;
  }

  /** A refresh whose transaction is rolled back leaves the row as it was, ready to spend its token again. */
  lemma LosingRound(s: State, now: int, new_: Tokens)
    requires s.lock.None? && s.row.Some? && AccessExpired(s.row.value, now) && !RefreshExpired(s.row.value, now)
    requires new_.refresh !in s.issued
    ensures var k, token := |s.calls|, multiset{s.row.value.refresh};
            var ls := [Begin(true)] + ([Lock(k)] + ([Refresh(k, now, new_)] + ([Abort(k)] + [])));
            && PossibleRun(s, ls)
            && Final(s, ls) == s.(calls := s.calls + [Done(Raised)], spent := s.spent + token, lost := s.lost + token,
                                  issued := s.issued + {new_.refresh})
  {
    var k, row, token := |s.calls|, s.row.value, multiset{s.row.value.refresh};
    var s1 := s.(calls := s.calls + [Waiting(true)]);
    var s2 := s.(lock := Some(k), calls := s.calls + [Locked(true, row)]);
    var s3 := s2.(calls := s.calls + [Refreshed(row, new_)], spent := s.spent + token,
        issued := s.issued + {new_.refresh});
    var s4 := s3.(lock := None, calls := s.calls + [Done(Raised)], lost := s.lost + token);
    Prepend(s3, Abort(k), s4, []);
    Prepend(s2, Refresh(k, now, new_), s3, [Abort(k)] + []);
    Prepend(s1, Lock(k), s2, [Refresh(k, now, new_)] + ([Abort(k)] + []));
    Prepend(s, Begin(true), s1, [Lock(k)] + ([Refresh(k, now, new_)] + ([Abort(k)] + [])));
  }

  lemma {:induction false} RunsCompose(s: State, xs: seq<Label>, ys: seq<Label>)
    requires PossibleRun(s, xs) && PossibleRun(Final(s, xs), ys)
    ensures PossibleRun(s, xs + ys) && Final(s, xs + ys) == Final(Final(s, xs), ys)
    decreases |xs|
  {
    if xs == [] {
      assert xs + ys == ys;
    } else {
      assert (xs + ys)[0] == xs[0] && (xs + ys)[1..] == xs[1..] + ys;
      RunsCompose(Apply(s, xs[0]), xs[1..], ys);
    }
  }

  /** A refresh that is committed spends the token of the row once more. */
  lemma SpendingRound(s: State, now: int, new_: Tokens)
    requires s.lock.None? && s.row.Some? && AccessExpired(s.row.value, now) && !RefreshExpired(s.row.value, now)
    requires new_.refresh !in s.issued
    ensures var k := |s.calls|;
            var ls := [Begin(true)] + ([Lock(k)] + ([Refresh(k, now, new_)] + ([Commit(k)] + [])));
            && PossibleRun(s, ls)
            && Final(s, ls).spent == s.spent + multiset{s.row.value.refresh}
  {
    var k, row, token := |s.calls|, s.row.value, multiset{s.row.value.refresh};
    var s1 := s.(calls := s.calls + [Waiting(true)]);
    var s2 := s.(lock := Some(k), calls := s.calls + [Locked(true, row)]);
    var s3 := s2.(calls := s.calls + [Refreshed(row, new_)], spent := s.spent + token,
        issued := s.issued + {new_.refresh});
    var s4 := Apply(s3, Commit(k));
    Prepend(s3, Commit(k), s4, []);
    Prepend(s2, Refresh(k, now, new_), s3, [Commit(k)] + []);
    Prepend(s1, Lock(k), s2, [Refresh(k, now, new_)] + ([Commit(k)] + []));
    Prepend(s, Begin(true), s1, [Lock(k)] + ([Refresh(k, now, new_)] + ([Commit(k)] + [])));
  }

  lemma {:induction false} LongerThanAll(issued: set<string>) returns (n: nat)
    ensures forall t :: t in issued ==> |t| < n
  {
    n := 0;
    if issued != {} {
      var t :| t in issued;
      var m := LongerThanAll(issued - {t});
      n := if |t| < m then m else |t| + 1;
      assert forall u :: u in issued ==> u == t || u in issued - {t};
    }
  }

  lemma FreshTokens(issued: set<string>) returns (a: Tokens, b: Tokens)
    ensures a.refresh !in issued && b.refresh !in issued && a.refresh != b.refresh
  {
    var n := LongerThanAll(issued);
    a := Tokens("", seq(n, i => 'a'), 0, 0);
    b := Tokens("", seq(n + 1, i => 'a'), 0, 0);
    assert |a.refresh| == n && |b.refresh| == n + 1;
  }

  /** One lost refresh is enough: the next call spends the token again. */
  lemma OneLossSpendsTwice(s: State, now: int) returns (ls: seq<Label>)
    requires Initial(s) && s.row.Some? && AccessExpired(s.row.value, now) && !RefreshExpired(s.row.value, now)
    ensures PossibleRun(s, ls) && Losses(ls) == 1 && Final(s, ls).spent[s.row.value.refresh] == 2
  {
    var a, b := FreshTokens(s.issued);
    LosingRound(s, now, a);
    var xs := [Begin(true)] + ([Lock(0)] + ([Refresh(0, now, a)] + ([Abort(0)] + [])));
    SpendingRound(Final(s, xs), now, b);
    var ys := [Begin(true)] + ([Lock(1)] + ([Refresh(1, now, b)] + ([Commit(1)] + [])));
    RunsCompose(s, xs, ys);
    ls := xs + ys;
    LossesAdd(xs, ys);
    CountLosses(now, a, b);
  }

  lemma {:induction false} LossesAdd(xs: seq<Label>, ys: seq<Label>)
    ensures Losses(xs + ys) == Losses(xs) + Losses(ys)
  {
    if xs == [] {
      assert xs + ys == ys;
    } else {
      assert (xs + ys)[0] == xs[0] && (xs + ys)[1..] == xs[1..] + ys;
      LossesAdd(xs[1..], ys);
    }
  }

  lemma LossesCons(l: Label, ls: seq<Label>)
    ensures Losses([l] + ls) == (if Loses(l) then 1 else 0) + Losses(ls)
  {
    assert ([l] + ls)[1..] == ls;
  }

  lemma CountLosses(now: int, a: Tokens, b: Tokens)
    ensures Losses([Begin(true)] + ([Lock(0)] + ([Refresh(0, now, a)] + ([Abort(0)] + [])))) == 1
    ensures Losses([Begin(true)] + ([Lock(1)] + ([Refresh(1, now, b)] + ([Commit(1)] + [])))) == 0
  {
    LossesCons(Abort(0), []);
    LossesCons(Refresh(0, now, a), [Abort(0)] + []);
    LossesCons(Lock(0), [Refresh(0, now, a)] + ([Abort(0)] + []));
    LossesCons(Begin(true), [Lock(0)] + ([Refresh(0, now, a)] + ([Abort(0)] + [])));
    LossesCons(Commit(1), []);
    LossesCons(Refresh(1, now, b), [Commit(1)] + []);
    LossesCons(Lock(1), [Refresh(1, now, b)] + ([Commit(1)] + []));
    LossesCons(Begin(true), [Lock(1)] + ([Refresh(1, now, b)] + ([Commit(1)] + [])));
  }

  /** No run with at most `most` lost refreshes spends a token twice. */
  ghost predicate SpentOnce(s: State, most: nat) {
    forall ls, token :: PossibleRun(s, ls) && Losses(ls) <= most ==> Final(s, ls).spent[token] <= 1
  }

  /** For a row that can be refreshed at some time, that is so exactly when no refresh may be lost. */
  lemma SpentOnceExactlyWithoutLoss(s: State, now: int, most: nat)
    requires Initial(s) && s.row.Some? && AccessExpired(s.row.value, now) && !RefreshExpired(s.row.value, now)
    ensures SpentOnce(s, most) <==> most == 0
  {
    if most == 0 {
      forall ls, token | PossibleRun(s, ls) && Losses(ls) <= most ensures Final(s, ls).spent[token] <= 1 {
        SingleRefreshPerToken(s, ls, token);
      }
    } else {
      var ls := OneLossSpendsTwice(s, now);
      assert Final(s, ls).spent[s.row.value.refresh] == 2;
    }
  }

  /** While a call is past its read nobody else changes the row. */
  lemma LockProtectsRow(t: State, l: Label, k: nat)
    requires LockOk(t) && Enabled(t, l) && k < |t.calls|
    requires HoldsLock(t.calls[k]) && HoldsLock(Apply(t, l).calls[k])
    ensures Apply(t, l).row == t.row == Some(t.calls[k].read) == Some(Apply(t, l).calls[k].read)
  {
    StepKeepsLock(t, l);
  }

  /** A call that ends returns what the row then holds, or raises and leaves it. */
  lemma EndReturnsTheRow(t: State, l: Label, k: nat)
    requires LockOk(t) && Enabled(t, l) && k < |t.calls| && t.calls[k] != Apply(t, l).calls[k]
               && Apply(t, l).calls[k].Done?
    ensures match Apply(t, l).calls[k].outcome
            case Returned(tokens) => Apply(t, l).row == tokens
            case Raised => Apply(t, l).row == t.row
  {
  }

  /** Each call returns what the row holds at the end of its own lock period: while the call is past its
      read nobody else changes the row, and when it returns tokens the row holds exactly those.  A call
      that finds no row returns none. */
  lemma CallReturnsTheRow(s: State, ls: seq<Label>, l: Label, k: nat)
    requires Initial(s) && PossibleRun(s, ls) && Enabled(Final(s, ls), l) && k < |Final(s, ls).calls|
    ensures var t := Final(s, ls); var u := Apply(t, l);
            && (HoldsLock(t.calls[k]) && HoldsLock(u.calls[k])
                ==> u.row == t.row == Some(t.calls[k].read) == Some(u.calls[k].read))
            && (t.calls[k] != u.calls[k] && u.calls[k].Done? && u.calls[k].outcome.Returned?
                ==> u.row == u.calls[k].outcome.tokens)
            && (t.calls[k] != u.calls[k] && u.calls[k].Done? && u.calls[k].outcome == Raised ==> u.row == t.row)
  {
    RunKeepsInv(s, ls);
    var t := Final(s, ls);
    var u := Apply(t, l);
    if HoldsLock(t.calls[k]) && HoldsLock(u.calls[k]) {
      LockProtectsRow(t, l, k);
    } else if t.calls[k] != u.calls[k] && u.calls[k].Done? {
      EndReturnsTheRow(t, l, k);
    }
  }

  // ----- one call that nobody interrupts -----

  /** What a call makes of the row.  `reply` is the provider's, None if it fails. */
  function Load(row: Option<Tokens>, checks: bool, now: int, reply: Option<Tokens>): (r: (Outcome, Option<Tokens>))
    ensures r.0.Returned? ==> r.0.tokens == r.1
    ensures r.0.Raised? ==> r.1 == row
  {
    if row.None? then (Returned(None), None)
    else if !checks || !AccessExpired(row.value, now) then (Returned(row), row)
    else if RefreshExpired(row.value, now) || reply.None? then (Raised, row)
    else (Returned(reply), reply)
  }

  /** The steps of that call in the state machine, after the row is locked ... */
  function StepsOnRow(k: nat, row: Tokens, checks: bool, now: int, reply: Option<Tokens>): seq<Label> {
    if !checks || !AccessExpired(row, now) then [Keep(k, now)] + []
    else if RefreshExpired(row, now) then [Expired(k, now)] + []
    else if reply.None? then [ProviderFails(k, now, false)] + []
    else [Refresh(k, now, reply.value)] + ([Commit(k)] + [])
  }

  /** ... and from the start. */
  function StepsOfLoad(s: State, checks: bool, now: int, reply: Option<Tokens>): seq<Label> {
    var k := |s.calls|;
    [Begin(checks)] + ([Lock(k)] + (if s.row.None? then [] else StepsOnRow(k, s.row.value, checks, now, reply)))
  }

  /** `s` with one more call, in the given stage. */
  function With(s: State, call: Call): State {
    s.(calls := s.calls + [call])
  }

  lemma LoadOnRow(s: State, row: Tokens, checks: bool, now: int, reply: Option<Tokens>)
    requires s.lock.None? && s.row == Some(row) && (reply.Some? ==> reply.value.refresh !in s.issued)
    ensures var l, ls := With(s, Locked(checks, row)).(lock := Some(|s.calls|)),
              StepsOnRow(|s.calls|, row, checks, now, reply);
            && PossibleRun(l, ls) && Final(l, ls).row == Load(s.row, checks, now, reply).1
            && Final(l, ls).lock.None? && Final(l, ls).calls == s.calls + [Done(Load(s.row, checks, now, reply).0)]
  {
    var k := |s.calls|;
    var l := With(s, Locked(checks, row)).(lock := Some(k));
    if !checks || !AccessExpired(row, now) {
      Prepend(l, Keep(k, now), Apply(l, Keep(k, now)), []);
    } else if RefreshExpired(row, now) {
      Prepend(l, Expired(k, now), Apply(l, Expired(k, now)), []);
    } else if reply.None? {
      Prepend(l, ProviderFails(k, now, false), Apply(l, ProviderFails(k, now, false)), []);
    } else {
      var r := Apply(l, Refresh(k, now, reply.value));
      assert r.calls == s.calls + [Refreshed(row, reply.value)];
      Prepend(r, Commit(k), Apply(r, Commit(k)), []);
      Prepend(l, Refresh(k, now, reply.value), r, [Commit(k)] + []);
    }
  }

  lemma LockingSteps(s: State, checks: bool)
    requires s.lock.None?
    ensures var k, w := |s.calls|, With(s, Waiting(checks));
            && Apply(s, Begin(checks)) == w && Enabled(w, Lock(k))
            && Apply(w, Lock(k)) == if s.row.None? then With(s, Done(Returned(None)))
                                    else With(s, Locked(checks, s.row.value)).(lock := Some(k))
  {
    var k := |s.calls|;
    assert (s.calls + [Waiting(checks)])[k := Done(Returned(None))] == s.calls + [Done(Returned(None))];
    if s.row.Some? {
      assert (s.calls + [Waiting(checks)])[k := Locked(checks, s.row.value)] == s.calls + [Locked(checks, s.row.value)];
    }
  }

  lemma UninterruptedLoad(s: State, checks: bool, now: int, reply: Option<Tokens>)
    requires s.lock.None? && (reply.Some? ==> reply.value.refresh !in s.issued)
    ensures var ls := StepsOfLoad(s, checks, now, reply);
            && PossibleRun(s, ls) && Final(s, ls).row == Load(s.row, checks, now, reply).1
            && Final(s, ls).lock.None? && Final(s, ls).calls == s.calls + [Done(Load(s.row, checks, now, reply).0)]
  {
    var k, w := |s.calls|, With(s, Waiting(checks));
    LockingSteps(s, checks);
    if s.row.None? {
      Prepend(w, Lock(k), With(s, Done(Returned(None))), []);
      Prepend(s, Begin(checks), w, [Lock(k)] + []);
    } else {
      var ls := StepsOnRow(k, s.row.value, checks, now, reply);
      LoadOnRow(s, s.row.value, checks, now, reply);
      Prepend(w, Lock(k), With(s, Locked(checks, s.row.value)).(lock := Some(k)), ls);
      Prepend(s, Begin(checks), w, [Lock(k)] + ls);
    }
  }

  class AuthTokenStore {
    var row: Option<Tokens>

    constructor ()
      ensures row == None
    {
      row := None;
    }

    method StoreTokens(access: string, refresh: string, accessExpires: int, refreshExpires: int)
      modifies this
      ensures row == Some(Tokens(access, refresh, accessExpires, refreshExpires))
    {
      row := Some(Tokens(access, refresh, accessExpires, refreshExpires));
    }

    method LoadTokens(checks: bool, now: int, reply: Option<Tokens>) returns (outcome: Outcome)
      modifies this
      ensures (outcome, row) == Load(old(row), checks, now, reply)
      ensures checks && outcome.Returned? && row.Some? ==>
                row.value.accessExpires == 0 || row.value.accessExpires >= now + 14400 || row == reply
      ensures old(row).Some? && (old(row).value.accessExpires == 0 || old(row).value.accessExpires >= now + 14400) ==>
                row == old(row) && outcome == Returned(row)
    {
      var record := row;
      if record.None? {
        return Returned(None);
      }
      var refreshed := None;
      if checks && AccessExpired(record.value, now) {
        if RefreshExpired(record.value, now) || reply.None? {
          return Raised;
        }
        refreshed := reply;
      }
      if refreshed.Some? {
        row := refreshed;
      }
      outcome := Returned(if refreshed.Some? then refreshed else record);
    }
  }
}
