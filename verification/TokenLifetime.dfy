/** How long tokens live and whose they are: every token kept or given out is as the
    response that brought it said, over every interleaving and whatever the provider
    answers. */
module TokenLifetime {
  import opened Text
  import opened TokenManager
  import S = TokenSafety
  import T = TokenChain

  /** What a response answered at this time makes of the credentials before it. */
  predicate AsAnswered(before: Credentials, r: Response, at: int, after: Credentials) {
    && after.accessToken == r.accessToken
    && after.expiresAt == at + r.expiresIn
    && after.accountId == (match r.account case Some(account) => account case None => before.accountId)
    && after.refreshToken ==
       (if IsBlank(r.refreshToken) then before.refreshToken else TrimSpace(r.refreshToken))
    && after.localSecret == before.localSecret && after.version == before.version
  }

  lemma RefreshedAsAnswered(before: Credentials, r: Response, at: int)
    ensures AsAnswered(before, r, at, Refreshed(before, r, at))
  {
    TrimSpaceIsTrimmed(r.refreshToken);
  }

  /** Credentials that were stored at some time: the first ones or those of a refresh. */
  ghost predicate WereStored(initial: Credentials, log: seq<Entry>, c: Credentials) {
    exists k :: 0 <= k <= |log| && c == S.Before(initial, log, k)
  }

  /** A token and account that were stored together. */
  ghost predicate WasGiven(initial: Credentials, log: seq<Entry>, result: Option<Access>) {
    result.Some? ==>
      exists k :: 0 <= k <= |log|
               && result.value == Access(S.Before(initial, log, k).accessToken, S.Before(initial, log, k).accountId)
  }

  ghost predicate ThreadIssued(initial: Credentials, s: State, t: Thread) {
    match t
    case FastLoaded(c) => WereStored(initial, s.log, c)
    case Calling(d) => d.at <= s.now
    case Received(d, _, r, at, updated) => d.at <= at <= s.now && AsAnswered(s.stored, r, at, updated)
    case Leaving(_, result) => WasGiven(initial, s.log, result)
    case Returned(_, result) => WasGiven(initial, s.log, result)
    case _ => true
  }

  predicate EntryIssued(initial: Credentials, log: seq<Entry>, k: nat, now: int)
    requires k < |log|
  {
    && log[k].decision.at <= log[k].answeredAt <= now
    && AsAnswered(S.Before(initial, log, k), log[k].response, log[k].answeredAt, log[k].after)
  }

  ghost predicate Issued(initial: Credentials, s: State) {
    && (forall i | 0 <= i < |s.threads| :: ThreadIssued(initial, s, s.threads[i]))
    && forall k | 0 <= k < |s.log| :: EntryIssued(initial, s.log, k, s.now)
  }

  // ---- Every step keeps it ------------------------------------------------------------------

  lemma StoredIsLast(initial: Credentials, s: State)
    requires T.Sound(initial, s)
    ensures s.stored == S.Before(initial, s.log, |s.log|)
    ensures WereStored(initial, s.log, s.stored) && WasGiven(initial, s.log, Some(AccessFrom(s.stored)))
  {
  }

  /** One thread moves on; nothing is stored. */
  lemma PutIssued(initial: Credentials, s: State, i: nat, t: Thread, r: State)
    requires Issued(initial, s) && i < |s.threads|
    requires r.threads == s.threads[i := t] && r.stored == s.stored && r.log == s.log && r.now == s.now
    requires ThreadIssued(initial, s, t)
    ensures Issued(initial, r)
  {
    forall j | 0 <= j < |r.threads|
      ensures ThreadIssued(initial, r, r.threads[j])
    {
      if j != i {
        assert r.threads[j] == s.threads[j] && ThreadIssued(initial, s, s.threads[j]);
      }
    }
  }

  lemma TickIssued(initial: Credentials, s: State, seconds: nat)
    requires Issued(initial, s)
    ensures Issued(initial, s.(now := s.now + seconds))
  {
    var r := s.(now := s.now + seconds);
    forall j | 0 <= j < |r.threads|
      ensures ThreadIssued(initial, r, r.threads[j])
    {
      assert ThreadIssued(initial, s, s.threads[j]);
    }
    forall k | 0 <= k < |r.log|
      ensures EntryIssued(initial, r.log, k, r.now)
    {
      assert EntryIssued(initial, s.log, k, s.now);
    }
  }

  lemma StillStored(initial: Credentials, log: seq<Entry>, e: Entry, c: Credentials)
    requires WereStored(initial, log, c)
    ensures WereStored(initial, log + [e], c)
  {
    var k :| 0 <= k <= |log| && c == S.Before(initial, log, k);
    S.BeforeAppend(initial, log, e);
    assert c == S.Before(initial, log + [e], k);
  }

  lemma StillGiven(initial: Credentials, log: seq<Entry>, e: Entry, result: Option<Access>)
    requires WasGiven(initial, log, result)
    ensures WasGiven(initial, log + [e], result)
  {
    if result.Some? {
      var k :| 0 <= k <= |log|
               && result.value == Access(S.Before(initial, log, k).accessToken, S.Before(initial, log, k).accountId);
      S.BeforeAppend(initial, log, e);
      assert S.Before(initial, log + [e], k) == S.Before(initial, log, k);
    }
  }

  /** A thread outside the lock goes on as before when another one saves. */
  lemma OutsideIssued(initial: Credentials, s: State, t: Thread, r: State, e: Entry)
    requires ThreadIssued(initial, s, t) && !S.Critical(t) && r.log == s.log + [e]
    ensures ThreadIssued(initial, r, t)
  {
    match t
    case FastLoaded(c) => StillStored(initial, s.log, e, c);
    case Returned(_, result) => StillGiven(initial, s.log, e, result);
    case _ =>
  }

  lemma LogIssued(initial: Credentials, log: seq<Entry>, e: Entry, now: int)
    requires forall k | 0 <= k < |log| :: EntryIssued(initial, log, k, now)
    requires e.decision.at <= e.answeredAt <= now
    requires AsAnswered(S.Before(initial, log, |log|), e.response, e.answeredAt, e.after)
    ensures forall k | 0 <= k < |log + [e]| :: EntryIssued(initial, log + [e], k, now)
  {
    S.BeforeAppend(initial, log, e);
    forall k | 0 <= k < |log + [e]|
      ensures EntryIssued(initial, log + [e], k, now)
    {
      if k < |log| {
        assert EntryIssued(initial, log, k, now) && (log + [e])[k] == log[k];
      }
    }
  }

  lemma SaveIssued(initial: Credentials, s: State, i: nat, outcome: SaveOutcome)
    requires T.Sound(initial, s) && Issued(initial, s) && i < |s.threads| && s.threads[i].Received?
    ensures Issued(initial, Saved(s, i, s.threads[i], outcome))
  {
    var t, r := s.threads[i], Saved(s, i, s.threads[i], outcome);
    StoredIsLast(initial, s);
    assert ThreadIssued(initial, s, t);
    if !Validates(t.updated) || outcome.NotPersisted? {
      PutIssued(initial, s, i, Leaving(t.decision.call, None), r);
    } else {
      var e := Entry(t.decision, t.known, t.response, t.answeredAt, t.updated);
      LogIssued(initial, s.log, e, s.now);
      SaverIssued(initial, s, i, e, r);
    }
  }

  lemma SaverIssued(initial: Credentials, s: State, i: nat, e: Entry, r: State)
    requires T.Sound(initial, s) && Issued(initial, s) && i < |s.threads| && S.Critical(s.threads[i])
    requires r.log == s.log + [e] && |r.threads| == |s.threads| && r.threads == s.threads[i := r.threads[i]]
    requires r.threads[i].Leaving? && (r.threads[i].result.Some? ==> r.threads[i].result.value == AccessFrom(e.after))
    requires r.now == s.now && forall k | 0 <= k < |r.log| :: EntryIssued(initial, r.log, k, r.now)
    ensures Issued(initial, r)
  {
    S.BeforeAppend(initial, s.log, e);
    forall j | 0 <= j < |r.threads|
      ensures ThreadIssued(initial, r, r.threads[j])
    {
      if j != i {
        assert r.threads[j] == s.threads[j] && ThreadIssued(initial, s, s.threads[j]);
        assert S.Critical(s.threads[i]) && s.owner == Some(i);
        OutsideIssued(initial, s, s.threads[j], r, e);
      } else {
        assert S.Before(initial, r.log, |r.log|) == e.after;
      }
    }
  }

  lemma CheckIssued(initial: Credentials, s: State, i: nat)
    requires T.Sound(initial, s) && Issued(initial, s) && i < |s.threads| && s.threads[i].Loaded?
    ensures Issued(initial, Step(s, i, Check))
  {
    var t := s.threads[i];
    StoredIsLast(initial, s);
    assert T.HolderOk(s.stored, t);
    PutIssued(initial, s, i, Decide(t.call, t.credentials, s.now), Step(s, i, Check));
  }

  lemma FastIssued(initial: Credentials, s: State, i: nat, a: Action)
    requires T.Sound(initial, s) && Issued(initial, s) && i < |s.threads|
    requires a.FastLoad? || a.FastCheck? || a.ForceRefresh?
    ensures Issued(initial, Step(s, i, a))
  {
    var r := Step(s, i, a);
    StoredIsLast(initial, s);
    if r != s {
      assert ThreadIssued(initial, s, s.threads[i]);
      PutIssued(initial, s, i, r.threads[i], r);
    }
  }

  lemma LockIssued(initial: Credentials, s: State, i: nat, a: Action)
    requires Issued(initial, s) && i < |s.threads| && (a.Lock? || a.Load? || a.Unlock?)
    ensures Issued(initial, Step(s, i, a))
  {
    var r := Step(s, i, a);
    if r != s {
      assert ThreadIssued(initial, s, s.threads[i]);
      PutIssued(initial, s, i, r.threads[i], r);
    }
  }

  lemma AnswerIssued(initial: Credentials, s: State, i: nat, response: Option<Response>)
    requires T.Sound(initial, s) && Issued(initial, s) && i < |s.threads| && s.threads[i].Calling?
    ensures Issued(initial, Step(s, i, Answer(response)))
  {
    var r := Step(s, i, Answer(response));
    assert T.HolderOk(s.stored, s.threads[i]) && ThreadIssued(initial, s, s.threads[i]);
    if response.Some? {
      RefreshedAsAnswered(s.stored, response.value, s.now);
    }
    PutIssued(initial, s, i, r.threads[i], r);
  }

  lemma StepIssued(initial: Credentials, s: State, i: nat, a: Action)
    requires T.Sound(initial, s) && Issued(initial, s)
    ensures Issued(initial, Step(s, i, a))
  {
    if a.Tick? {
      TickIssued(initial, s, a.seconds);
    } else if i < |s.threads| {
      match a
      case Answer(response) => if s.threads[i].Calling? { AnswerIssued(initial, s, i, response); }
      case Save(outcome) => if s.threads[i].Received? { SaveIssued(initial, s, i, outcome); }
      case Check => if s.threads[i].Loaded? { CheckIssued(initial, s, i); }
      case Lock => LockIssued(initial, s, i, a);
      case Load(_) => LockIssued(initial, s, i, a);
      case Unlock => LockIssued(initial, s, i, a);
      case _ => FastIssued(initial, s, i, a);
    }
  }

  lemma {:induction false} EveryRunIssued(stored: Credentials, threads: nat, now: int, moves: seq<Move>)
    requires Validates(stored)
    ensures Issued(stored, Run(Initial(stored, threads, now), moves))
  {
    if moves != [] {
      var n := |moves| - 1;
      EveryRunIssued(stored, threads, now, moves[..n]);
      T.EveryRunSound(stored, threads, now, moves[..n]);
      StepIssued(stored, Run(Initial(stored, threads, now), moves[..n]), moves[n].thread, moves[n].action);
    }
  }

  // ---- What follows ---------------------------------------------------------------------------

  /** Every entry of the log saved what its response said, with a lifetime from the time it
      came, and what is stored is what the last one saved. */
  ghost predicate AllAsAnswered(initial: Credentials, s: State) {
    && s.stored == S.Before(initial, s.log, |s.log|)
    && forall k | 0 <= k < |s.log| ::
         && s.log[k].decision.at <= s.log[k].answeredAt <= s.now
         && AsAnswered(S.Before(initial, s.log, k), s.log[k].response, s.log[k].answeredAt, s.log[k].after)
  }

  lemma IssuedAsAnswered(initial: Credentials, s: State)
    requires Issued(initial, s) && T.Sound(initial, s)
    ensures AllAsAnswered(initial, s)
  {
    StoredIsLast(initial, s);
    forall k | 0 <= k < |s.log|
      ensures s.log[k].decision.at <= s.log[k].answeredAt <= s.now
      ensures AsAnswered(S.Before(initial, s.log, k), s.log[k].response, s.log[k].answeredAt, s.log[k].after)
    {
      assert EntryIssued(initial, s.log, k, s.now);
    }
  }

  lemma SavedAsAnswered(stored: Credentials, threads: nat, now: int, moves: seq<Move>)
    requires Validates(stored)
    ensures AllAsAnswered(stored, Run(Initial(stored, threads, now), moves))
  {
    hide *;
    EveryRunIssued(stored, threads, now, moves);
    T.EveryRunSound(stored, threads, now, moves);
    IssuedAsAnswered(stored, Run(Initial(stored, threads, now), moves));
  }

  /** A response is recorded at the time it comes, and saved with that time. */
  lemma AnswersAreRecorded(s: State, i: nat, response: Response, outcome: SaveOutcome)
    requires i < |s.threads| && s.threads[i].Calling? && !IsBlank(response.accessToken) && response.expiresIn > 0
    ensures var answered := Step(s, i, Answer(Some(response)));
            var t := answered.threads[i];
            && t.Received? && t.response == response && t.answeredAt == s.now && t.decision == s.threads[i].decision
            && var saved := Step(answered, i, Save(outcome));
               saved.log != s.log ==>
                 && |saved.log| == |s.log| + 1 && saved.log[..|s.log|] == s.log
                 && saved.log[|s.log|].response == response && saved.log[|s.log|].answeredAt == s.now
                 && saved.stored == saved.log[|s.log|].after
  {
  }

  /** When the lifetime of what was stored before the k-th refresh ends: as its response said. */
  function EndOfLife(initial: Credentials, log: seq<Entry>, k: nat): int
    requires k <= |log|
  {
    if k == 0 then initial.expiresAt else log[k - 1].answeredAt + log[k - 1].response.expiresIn
  }

  /** A token that was stored once is given out, with its account, if and only if its lifetime
      ends more than three minutes from now. */
  ghost predicate GivenWhileAlive(initial: Credentials, s: State, next: Thread) {
    exists k :: 0 <= k <= |s.log|
             && var c := S.Before(initial, s.log, k);
                if s.now + 180 < EndOfLife(initial, s.log, k)
                then (next.Returned? || next.Leaving?) && next.result == Some(Access(c.accessToken, c.accountId))
                else !((next.Returned? || next.Leaving?) && next.result.Some?)
  }

  lemma LifeIsStored(initial: Credentials, s: State, k: nat)
    requires Issued(initial, s) && k <= |s.log|
    ensures EndOfLife(initial, s.log, k) == S.Before(initial, s.log, k).expiresAt
  {
    if k > 0 {
      assert EntryIssued(initial, s.log, k - 1, s.now);
    }
  }

  /** A valid token is asked for: with the lock and without it, one is given out without a
      refresh exactly while it lives for more than three minutes. */
  ghost predicate GivesAlive(initial: Credentials, s: State, i: nat) {
    i < |s.threads| ==>
      && (s.threads[i].FastLoaded? ==> GivenWhileAlive(initial, s, Step(s, i, FastCheck).threads[i]))
      && (s.threads[i].Loaded? && s.threads[i].call.GetValid? ==>
            GivenWhileAlive(initial, s, Step(s, i, Check).threads[i]))
  }

  lemma FastGivesAlive(initial: Credentials, s: State, i: nat)
    requires Issued(initial, s) && i < |s.threads| && s.threads[i].FastLoaded?
    ensures GivenWhileAlive(initial, s, Step(s, i, FastCheck).threads[i])
  {
    assert ThreadIssued(initial, s, s.threads[i]);
    var k :| 0 <= k <= |s.log| && s.threads[i].credentials == S.Before(initial, s.log, k);
    LifeIsStored(initial, s, k);
    assert S.Before(initial, s.log, k) == s.threads[i].credentials;
  }

  lemma LockedGivesAlive(initial: Credentials, s: State, i: nat)
    requires Issued(initial, s) && T.Sound(initial, s)
    requires i < |s.threads| && s.threads[i].Loaded? && s.threads[i].call.GetValid?
    ensures GivenWhileAlive(initial, s, Step(s, i, Check).threads[i])
  {
    assert T.HolderOk(s.stored, s.threads[i]);
    StoredIsLast(initial, s);
    LifeIsStored(initial, s, |s.log|);
    CheckDecides(s, i);
    hide Step, Issued, T.Sound, T.HolderOk;
    assert S.Before(initial, s.log, |s.log|) == s.threads[i].credentials;
  }

  /** Under the lock a token that serves the call is given out, whoever stored it; otherwise
      a refresh is begun if there is a refresh token. */
  lemma CheckDecides(s: State, i: nat)
    requires i < |s.threads| && s.threads[i].Loaded?
    ensures var call, c, next := s.threads[i].call, s.threads[i].credentials, Step(s, i, Check).threads[i];
            var serves := match call
                          case GetValid => c.expiresAt > s.now + 180
                          case Force(rejected) => c.accessToken != rejected;
            next == if serves then Leaving(call, Some(Access(c.accessToken, c.accountId)))
                    else if IsBlank(c.refreshToken) then Leaving(call, None)
                    else Calling(Decision(call, c, s.now))
  {
  }

  lemma GivenTokensAreAlive(stored: Credentials, threads: nat, now: int, moves: seq<Move>, i: nat)
    requires Validates(stored)
    ensures GivesAlive(stored, Run(Initial(stored, threads, now), moves), i)
  {
    hide Run, Issued, T.Sound, GivenWhileAlive, Step;
    EveryRunIssued(stored, threads, now, moves);
    T.EveryRunSound(stored, threads, now, moves);
    var s := Run(Initial(stored, threads, now), moves);
    if i < |s.threads| {
      if s.threads[i].FastLoaded? {
        FastGivesAlive(stored, s, i);
      } else if s.threads[i].Loaded? && s.threads[i].call.GetValid? {
        LockedGivesAlive(stored, s, i);
      }
    }
  }

  /** Every call that returns an access returns a token and account that were stored together. */
  lemma ResultsWereStored(stored: Credentials, threads: nat, now: int, moves: seq<Move>, i: nat)
    requires Validates(stored)
    ensures var s := Run(Initial(stored, threads, now), moves);
            i < |s.threads| && s.threads[i].Returned? ==> WasGiven(stored, s.log, s.threads[i].result)
  {
    EveryRunIssued(stored, threads, now, moves);
    var s := Run(Initial(stored, threads, now), moves);
    if i < |s.threads| {
      assert ThreadIssued(stored, s, s.threads[i]);
    }
  }
}
