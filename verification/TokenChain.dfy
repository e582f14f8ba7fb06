/** Stored credentials and refresh tokens over every interleaving, whatever the
    provider answers. */
module TokenChain {
  import opened Text
  import opened TokenManager
  import S = TokenSafety

  /** The refresh token after a list of responses: the latest one sent, or the one kept. */
  function Latest(start: string, settled: seq<Settled>): string {
    if settled == [] then start
    else Rotated(Latest(start, settled[..|settled| - 1]), settled[|settled| - 1].response)
  }

  /** The same when only saved responses count. */
  function LatestSaved(start: string, settled: seq<Settled>): string {
    if settled == [] then start
    else
      var front, last := LatestSaved(start, settled[..|settled| - 1]), settled[|settled| - 1];
      if last.saved then Rotated(front, last.response) else front
  }

  predicate Rotates(r: Response) {
    TrimSpace(r.refreshToken) != ""
  }

  /** The rotation that was lost: the last response to rotate the token, if it was not saved. */
  function LostRotation(settled: seq<Settled>): Option<string> {
    if settled == [] then None
    else
      var last := settled[|settled| - 1];
      if !Rotates(last.response) then LostRotation(settled[..|settled| - 1])
      else if last.saved then None
      else Some(TrimSpace(last.response.refreshToken))
  }

  /** What is saved is behind exactly by the lost rotation. */
  lemma {:induction false} LatestIsSavedOrLost(start: string, settled: seq<Settled>)
    ensures Latest(start, settled) ==
            if LostRotation(settled).Some? then LostRotation(settled).value else LatestSaved(start, settled)
  {
    if settled != [] {
      LatestIsSavedOrLost(start, settled[..|settled| - 1]);
    }
  }

  lemma SettledLast(start: string, settled: seq<Settled>, last: Settled)
    ensures LatestSaved(start, settled + [last]) ==
            if last.saved then Rotated(LatestSaved(start, settled), last.response) else LatestSaved(start, settled)
  {
    assert (settled + [last])[..|settled|] == settled;
  }

  predicate HolderOk(stored: Credentials, t: Thread) {
    match t
    case Loaded(_, c) => c == stored
    case Calling(d) => d.loaded == stored && S.Justified(d)
    case Received(d, _, response, _, updated) =>
      && d.loaded == stored && S.Justified(d)
      && updated.localSecret == stored.localSecret
      && updated.refreshToken == Rotated(stored.refreshToken, response)
    case _ => true
  }

  predicate AllJustified(log: seq<Entry>) {
    forall k | 0 <= k < |log| :: S.Justified(log[k].decision)
  }

  predicate Sound(initial: Credentials, s: State) {
    && Validates(s.stored) && s.stored.localSecret == initial.localSecret
    && s.stored.refreshToken == LatestSaved(initial.refreshToken, s.settled)
    && S.Exclusive(s.owner, s.threads)
    && (forall i | 0 <= i < |s.threads| :: HolderOk(s.stored, s.threads[i]))
    && S.Chained(initial, s.stored, s.log) && AllJustified(s.log)
  }

  /** One thread moves on; nothing is stored. */
  lemma PutSound(initial: Credentials, s: State, i: nat, t: Thread, r: State)
    requires Sound(initial, s) && i < |s.threads|
    requires r.threads == s.threads[i := t] && r.stored == s.stored && r.log == s.log
    requires LatestSaved(initial.refreshToken, r.settled) == LatestSaved(initial.refreshToken, s.settled)
    requires HolderOk(r.stored, t)
    requires if S.Critical(t) then r.owner == Some(i) && (S.Critical(s.threads[i]) || s.owner.None?)
             else r.owner == if S.Critical(s.threads[i]) then None else s.owner
    ensures Sound(initial, r)
  {
    forall j | 0 <= j < |r.threads|
      ensures HolderOk(r.stored, r.threads[j])
      ensures S.Critical(r.threads[j]) <==> r.owner == Some(j)
    {
      if j != i {
        assert r.threads[j] == s.threads[j];
      }
    }
  }

  lemma AnswerSound(initial: Credentials, s: State, i: nat, response: Response)
    requires Sound(initial, s) && i < |s.threads| && s.threads[i].Calling? && Acceptable(response)
    ensures Sound(initial, Step(s, i, Answer(Some(response))))
  {
    var d := s.threads[i].decision;
    PutSound(initial, s, i, Received(d, s.rejected, response, s.now, Refreshed(d.loaded, response, s.now)),
             Step(s, i, Answer(Some(response))));
  }

  lemma SaveSound(initial: Credentials, s: State, i: nat, outcome: SaveOutcome)
    requires Sound(initial, s) && i < |s.threads| && s.threads[i].Received?
    ensures Sound(initial, Saved(s, i, s.threads[i], outcome))
  {
    var t, r := s.threads[i], Saved(s, i, s.threads[i], outcome);
    if !Validates(t.updated) || outcome.NotPersisted? {
      SettledLast(initial.refreshToken, s.settled, Settled(t.response, false));
      PutSound(initial, s, i, Leaving(t.decision.call, None), r);
    } else {
      StoredSound(initial, s, i, r, Entry(t.decision, t.known, t.response, t.answeredAt, t.updated));
    }
  }

  lemma StoredSound(initial: Credentials, s: State, i: nat, r: State, e: Entry)
    requires Sound(initial, s) && i < |s.threads| && s.threads[i].Received? && e.decision == s.threads[i].decision
    requires |r.threads| == |s.threads| && r.threads == s.threads[i := r.threads[i]] && r.threads[i].Leaving?
    requires r.owner == s.owner && r.stored == e.after == s.threads[i].updated && Validates(e.after)
    requires r.log == s.log + [e] && r.settled == s.settled + [Settled(s.threads[i].response, true)]
    ensures Sound(initial, r)
  {
    assert S.Critical(s.threads[i]);
    assert HolderOk(s.stored, s.threads[i]);
    SettledLast(initial.refreshToken, s.settled, Settled(s.threads[i].response, true));
    S.ChainAppend(initial, s.stored, s.log, e);
    JustifiedAppend(s.log, e);
    OthersOutside(s, r, i);
  }

  lemma JustifiedAppend(log: seq<Entry>, e: Entry)
    requires AllJustified(log) && S.Justified(e.decision)
    ensures AllJustified(log + [e])
  {
    assert forall k | 0 <= k < |log| :: (log + [e])[k] == log[k];
  }

  /** A save by the thread that holds the lock concerns no other thread. */
  lemma OthersOutside(s: State, r: State, i: nat)
    requires i < |s.threads| && S.Exclusive(s.owner, s.threads) && s.owner == Some(i) == r.owner
    requires |r.threads| == |s.threads| && r.threads[i].Leaving?
    requires r.threads == s.threads[i := r.threads[i]]
    ensures S.Exclusive(r.owner, r.threads)
    ensures forall j | 0 <= j < |r.threads| :: HolderOk(r.stored, r.threads[j])
  {
    forall j | 0 <= j < |r.threads|
      ensures HolderOk(r.stored, r.threads[j]) && (S.Critical(r.threads[j]) <==> r.owner == Some(j))
    {
      if j != i {
        assert r.threads[j] == s.threads[j];
        assert !S.Critical(s.threads[j]);
      }
    }
  }

  lemma CheckSound(initial: Credentials, s: State, i: nat)
    requires Sound(initial, s) && i < |s.threads| && s.threads[i].Loaded?
    ensures Sound(initial, Step(s, i, Check))
  {
    var t := s.threads[i];
    PutSound(initial, s, i, Decide(t.call, t.credentials, s.now), Step(s, i, Check));
  }

  lemma OuterSound(initial: Credentials, s: State, i: nat, a: Action)
    requires Sound(initial, s) && i < |s.threads|
    requires a.ForceRefresh? || a.FastLoad? || a.FastCheck?
    ensures Sound(initial, Step(s, i, a))
  {
    var r := Step(s, i, a);
    if r != s {
      PutSound(initial, s, i, r.threads[i], r);
    }
  }

  lemma LockSound(initial: Credentials, s: State, i: nat, a: Action)
    requires Sound(initial, s) && i < |s.threads| && (a.Lock? || a.Unlock?)
    ensures Sound(initial, Step(s, i, a))
  {
    var r := Step(s, i, a);
    if r != s {
      PutSound(initial, s, i, r.threads[i], r);
    }
  }

  lemma LoadSound(initial: Credentials, s: State, i: nat, ok: bool)
    requires Sound(initial, s) && i < |s.threads|
    ensures Sound(initial, Step(s, i, Load(ok)))
  {
    var t := s.threads[i];
    if t.Locked? {
      PutSound(initial, s, i, if ok then Loaded(t.call, s.stored) else Leaving(t.call, None), Step(s, i, Load(ok)));
    }
  }

  lemma StepSound(initial: Credentials, s: State, i: nat, a: Action)
    requires Sound(initial, s)
    ensures Sound(initial, Step(s, i, a))
  {
    if i < |s.threads| && !a.Tick? {
      var t := s.threads[i];
      match a
      case Answer(response) =>
        if t.Calling? {
          if response.Some? && Acceptable(response.value) {
            AnswerSound(initial, s, i, response.value);
          } else {
            PutSound(initial, s, i, Leaving(t.decision.call, None), Step(s, i, a));
          }
        }
      case Save(outcome) => if t.Received? { SaveSound(initial, s, i, outcome); }
      case Check => if t.Loaded? { CheckSound(initial, s, i); }
      case Lock => LockSound(initial, s, i, a);
      case Load(ok) => LoadSound(initial, s, i, ok);
      case Unlock => LockSound(initial, s, i, a);
      case _ => OuterSound(initial, s, i, a);
    }
  }

  lemma {:induction false} EveryRunSound(stored: Credentials, threads: nat, now: int, moves: seq<Move>)
    requires Validates(stored)
    ensures Sound(stored, Run(Initial(stored, threads, now), moves))
  {
    if moves != [] {
      var n := |moves| - 1;
      EveryRunSound(stored, threads, now, moves[..n]);
      StepSound(stored, Run(Initial(stored, threads, now), moves[..n]), moves[n].thread, moves[n].action);
    }
  }

  // ---- What follows -----------------------------------------------------------------

  /** At any time at most one refresh is under way. It presents the latest saved refresh
      token; and that is the latest one the provider sent exactly when no rotation is
      lost, or the lost one happens to be the same text. */
  lemma RefreshesPresentTheLatest(stored: Credentials, threads: nat, now: int, moves: seq<Move>, i: nat, j: nat)
    requires Validates(stored)
    ensures var s := Run(Initial(stored, threads, now), moves);
            i < |s.threads| && s.threads[i].Calling? ==>
              var presented := s.threads[i].decision.loaded.refreshToken;
              && (j < |s.threads| && s.threads[j].Calling? ==> i == j)
              && presented == LatestSaved(stored.refreshToken, s.settled)
              && (presented == Latest(stored.refreshToken, s.settled) <==>
                  LostRotation(s.settled).None? || LostRotation(s.settled) == Some(presented))
  {
    EveryRunSound(stored, threads, now, moves);
    var s := Run(Initial(stored, threads, now), moves);
    LatestIsSavedOrLost(stored.refreshToken, s.settled);
    if i < |s.threads| && s.threads[i].Calling? {
      assert S.Critical(s.threads[i]);
      assert HolderOk(s.stored, s.threads[i]);
      if j < |s.threads| && s.threads[j].Calling? {
        assert S.Critical(s.threads[j]);
      }
    }
  }

  /** A refresh for expiry starts only when what is stored, and so what the refresh before
      it saved, is within three minutes of its expiry. */
  lemma ExpiryRefreshesAreDue(stored: Credentials, threads: nat, now: int, moves: seq<Move>, k: nat)
    requires Validates(stored) && k < |Run(Initial(stored, threads, now), moves).log|
    ensures var log := Run(Initial(stored, threads, now), moves).log;
            log[k].decision.call.GetValid? ==>
              S.Before(stored, log, k).expiresAt <= log[k].decision.at + REFRESH_BEFORE_EXPIRY
  {
    EveryRunSound(stored, threads, now, moves);
    var s := Run(Initial(stored, threads, now), moves);
    assert S.Justified(s.log[k].decision);
  }

  /** A refresh gives out again, then or later, a token that an earlier one replaced knowing
      it rejected; and still another refresh follows. */
  ghost predicate ReissuedBeforeRefresh(log: seq<Entry>) {
    exists k, m | 0 <= k <= m < |log| - 1 && S.ReplacesRejected(log[k]) ::
      log[m].after.accessToken == log[k].decision.loaded.accessToken
  }

  /** Whatever the provider answers: a token known to be rejected is replaced at most once
      exactly when no refresh follows the saving of such a token. */
  lemma AtMostOnceExactly(stored: Credentials, threads: nat, now: int, moves: seq<Move>)
    requires Validates(stored)
    ensures var log := Run(Initial(stored, threads, now), moves).log;
            S.AtMostOnce(log) <==> !ReissuedBeforeRefresh(log)
  {
    EveryRunSound(stored, threads, now, moves);
    var s := Run(Initial(stored, threads, now), moves);
    ChainDecides(stored, s.stored, s.log);
  }

  lemma ChainDecides(initial: Credentials, stored: Credentials, log: seq<Entry>)
    requires S.Chained(initial, stored, log)
    ensures S.AtMostOnce(log) <==> !ReissuedBeforeRefresh(log)
  {
    assert forall l | 0 < l < |log| :: log[l].decision.loaded == S.Before(initial, log, l) == log[l - 1].after;
    if !S.AtMostOnce(log) {
      var k, l :| 0 <= k < l < |log| && S.ReplacesRejected(log[k])
                  && log[l].decision.loaded.accessToken == log[k].decision.loaded.accessToken;
      assert log[l - 1].after.accessToken == log[k].decision.loaded.accessToken;
    }
    if ReissuedBeforeRefresh(log) {
      var k, m :| 0 <= k <= m < |log| - 1 && S.ReplacesRejected(log[k])
                  && log[m].after.accessToken == log[k].decision.loaded.accessToken;
      assert log[m + 1].decision.loaded == log[m].after;
    }
  }

  /** What is stored always validates and keeps the local secret. */
  lemma StoredStaysValid(stored: Credentials, threads: nat, now: int, moves: seq<Move>)
    requires Validates(stored)
    ensures var s := Run(Initial(stored, threads, now), moves);
            Validates(s.stored) && s.stored.localSecret == stored.localSecret
  {
    EveryRunSound(stored, threads, now, moves);
  }

  /** A lost rotation does happen: the provider answers the first refresh with a new
      refresh token, the save fails, and the next refresh presents the old one. */
  lemma LostSavePresentsTheOld(stored: Credentials, now: int, response: Response)
    requires Validates(stored) && Acceptable(response)
    requires Rotates(response) && TrimSpace(response.refreshToken) != stored.refreshToken
    ensures var token := stored.accessToken;
            var s := Run(Run(Run(Initial(stored, 1, now), S.Asking(token)), Losing(response)), S.Asking(token));
            && s.threads == [Calling(Decision(Force(token), stored, now))]
            && stored.refreshToken != Latest(stored.refreshToken, s.settled)
  {
    var token := stored.accessToken;
    var s0 := Initial(stored, 1, now);
    S.AskOnce(s0, token);
    var s1 := Run(s0, S.Asking(token));
    S.RunThree(s1, Move(0, Answer(Some(response))), Move(0, Save(NotPersisted)), Move(0, Unlock));
    var s2 := Run(s1, Losing(response));
    assert s2.settled == [Settled(response, false)] && s2.settled[..0] == [];
    S.AskOnce(s2, token);
  }

  function Losing(response: Response): seq<Move> {
    [Move(0, Answer(Some(response))), Move(0, Save(NotPersisted)), Move(0, Unlock)]
  }

  lemma DecidedAlone(s: State, i: nat, call: Call, loads: bool, a: State)
    requires i < |s.threads| && s.threads[i] == Waiting(call) && s.owner.None?
    requires a == Step(Step(Step(s, i, Lock), i, Load(loads)), i, Check)
    ensures a.threads == s.threads[i := if loads then Decide(call, s.stored, s.now) else Leaving(call, None)]
    ensures a.stored == s.stored && a.now == s.now && a.owner == Some(i)
  {
    assert Step(s, i, Lock).threads[i] == Locked(call);
  }

  lemma SavedAlone(a: State, i: nat, call: Call, response: Option<Response>, wait: nat, save: SaveOutcome, b: State)
    requires i < |a.threads|
    requires a.threads[i].Leaving? || a.threads[i].Calling?
    requires b == Step(Step(Step(a, i, Tick(wait)), i, Answer(response)), i, Save(save))
    ensures var t := a.threads[i];
            var answered := t.Calling? && response.Some? && Acceptable(response.value);
            var updated := if answered then Refreshed(t.decision.loaded, response.value, a.now + wait) else a.stored;
            var kept := answered && Validates(updated) && !save.NotPersisted?;
            && b.stored == (if kept then updated else a.stored) && b.owner == a.owner
            && b.threads == a.threads[i :=
                 if t.Leaving? then t
                 else Leaving(t.decision.call, if kept && save.Persisted? then Some(AccessFrom(updated)) else None)]
  {
    var c := Step(a, i, Tick(wait));
    var d := Step(c, i, Answer(response));
    if a.threads[i].Leaving? {
      assert b == c && a.threads == a.threads[i := a.threads[i]];
    }
  }

  /** A thread that is not interrupted does what the program does alone. */
  lemma Uninterrupted(s: State, i: nat, call: Call, loads: bool, response: Option<Response>, wait: nat,
                      save: SaveOutcome, a: State, b: State)
    requires i < |s.threads| && s.threads[i] == Waiting(call) && s.owner.None?
    requires a == Step(Step(Step(s, i, Lock), i, Load(loads)), i, Check)
    requires b == Step(Step(Step(a, i, Tick(wait)), i, Answer(response)), i, Save(save))
    ensures var r := Step(b, i, Unlock);
            var alone := RefreshOutcome(s.stored, call, loads, s.now, response, s.now + wait, save);
            && r.stored == alone.stored && r.owner.None?
            && r.threads == s.threads[i := Returned(call, alone.result)]
  {
    DecidedAlone(s, i, call, loads, a);
    SavedAlone(a, i, call, response, wait, save, b);
    var t := a.threads[i];
    assert t == if loads then Decide(call, s.stored, s.now) else Leaving(call, None);
    assert s.threads[i := t][i := b.threads[i]] == s.threads[i := b.threads[i]];
    UnlockedAlone(b, i);
  }

  lemma UnlockedAlone(b: State, i: nat)
    requires i < |b.threads| && b.threads[i].Leaving?
    ensures var r := Step(b, i, Unlock);
            && r.stored == b.stored && r.owner.None?
            && r.threads == b.threads[i := Returned(b.threads[i].call, b.threads[i].result)]
  {
  }
}
