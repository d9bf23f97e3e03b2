/** When tokens are refreshed, and how long what a call returns is good for, in seconds of the clock. */
module AuthTokenExpiry {
  import opened Util
  import opened AuthTokens

  /** Good for four hours at least, or for ever. */
  predicate GoodForFourHours(t: Tokens, now: int) {
    t.accessExpires == 0 || t.accessExpires >= now + 14400
  }

  predicate RefreshTokenLives(t: Tokens, now: int) {
    t.refreshExpires == 0 || t.refreshExpires >= now
  }

  /** An uninterrupted call with the callback keeps a row exactly if its access token is good for four hours;
      otherwise it returns and stores the provider's reply, if the refresh token lives and the provider
      replies, and else raises.  A call without the callback always keeps the row. */
  lemma LoadRefreshesExactlyWhen(row: Tokens, checks: bool, now: int, reply: Option<Tokens>)
    ensures var r := Load(Some(row), checks, now, reply);
            if !checks || GoodForFourHours(row, now) then r == (Returned(Some(row)), Some(row))
            else if RefreshTokenLives(row, now) && reply.Some? then r == (Returned(reply), reply)
            else r == (Raised, Some(row))
  {
  }

  /** So what a call with the callback returns is good for four hours, or has just come from the provider. */
  lemma LoadedTokensAreGood(row: Option<Tokens>, now: int, reply: Option<Tokens>)
    ensures var (outcome, _) := Load(row, true, now, reply);
            outcome.Returned? && outcome.tokens.Some? ==>
              GoodForFourHours(outcome.tokens.value, now) || outcome.tokens == reply
    ensures Load(None, true, now, reply) == (Returned(None), None)
  {
  }

  /** In every interleaving, a step gives a refresh token to the provider only while the row holds it, with an
      access token that has less than four hours left and a refresh token that has not expired, on behalf of
      a call with the callback that holds the lock of the row. */
  lemma SpendsOnlyWhatExpires(s: State, ls: seq<Label>, l: Label, token: string)
    requires Initial(s) && PossibleRun(s, ls) && Enabled(Final(s, ls), l)
    requires Apply(Final(s, ls), l).spent[token] > Final(s, ls).spent[token]
    ensures l.Refresh? || l.ProviderFails?
    ensures var t := Final(s, ls);
            && t.row.Some? && t.row.value.refresh == token && t.lock == Some(l.k)
            && l.k < |t.calls| && t.calls[l.k].Locked? && t.calls[l.k].checks
            && !GoodForFourHours(t.row.value, l.now) && RefreshTokenLives(t.row.value, l.now)
  {
    RunKeepsInv(s, ls);
  }

  lemma EndingReturnsGoodTokens(t: State, l: Label, k: nat)
    requires LockOk(t) && Enabled(t, l) && k < |t.calls|
    requires t.calls[k] != Apply(t, l).calls[k] && Apply(t, l).calls[k].Done?
    requires Apply(t, l).calls[k].outcome.Returned? && Apply(t, l).calls[k].outcome.tokens.Some?
    ensures var tokens := Apply(t, l).calls[k].outcome.tokens.value;
            || (l.Keep? && t.row == Some(tokens) && (t.calls[k].checks ==> GoodForFourHours(tokens, l.now)))
            || (l == Commit(k) && t.calls[k] == Refreshed(t.calls[k].read, tokens) && t.row == Some(t.calls[k].read))
  {
  }

  /** In every interleaving, a call with the callback that returns tokens at time `now` returns the row's, good
      for four hours, or at a commit the reply the provider gave to it. */
  lemma ReturnedTokensAreGood(s: State, ls: seq<Label>, l: Label, k: nat)
    requires Initial(s) && PossibleRun(s, ls) && Enabled(Final(s, ls), l) && k < |Final(s, ls).calls|
    requires var t, u := Final(s, ls), Apply(Final(s, ls), l);
             t.calls[k] != u.calls[k] && u.calls[k].Done? && u.calls[k].outcome.Returned?
             && u.calls[k].outcome.tokens.Some?
    ensures var t, u := Final(s, ls), Apply(Final(s, ls), l);
            var tokens := u.calls[k].outcome.tokens.value;
            || (l.Keep? && t.row == Some(tokens) && (t.calls[k].checks ==> GoodForFourHours(tokens, l.now)))
            || (l == Commit(k) && t.calls[k] == Refreshed(t.calls[k].read, tokens) && t.row == Some(t.calls[k].read))
  {
    hide Apply, Enabled, SpentOk;
    RunKeepsInv(s, ls);
    EndingReturnsGoodTokens(Final(s, ls), l, k);
  }

  /** No step changes the row but a commit, which stores the reply, and a log-in. */
  lemma RowChangesOnlyBy(t: State, l: Label)
    requires Enabled(t, l) && Apply(t, l).row != t.row
    ensures (l.Commit? && Apply(t, l).row == Some(t.calls[l.k].new_)) || (l.Store? && Apply(t, l).row == Some(l.tokens))
  {
  }
}
