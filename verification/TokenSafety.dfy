/** What holds over every interleaving of token refreshes. */
module TokenSafety {
  import opened Text
  import opened TokenManager

  // ---- The assumption on the provider --------------------------------------------

  /** The provider never issues a token that has already been rejected. */
  predicate Honest(s: State, i: nat, a: Action) {
    a.Answer? && a.response.Some? && i < |s.threads| && s.threads[i].Calling? ==>
      a.response.value.accessToken !in s.rejected
  }

  predicate HonestRun(s: State, moves: seq<Move>) {
    moves != [] ==>
      var n := |moves| - 1;
      HonestRun(s, moves[..n]) && Honest(Run(s, moves[..n]), moves[n].thread, moves[n].action)
  }

  // ---- The invariant ----------------------------------------------------------------

  /** The places where a thread holds the lock. */
  predicate Critical(t: Thread) {
    t.Locked? || t.Loaded? || t.Calling? || t.Received? || t.Leaving?
  }

  predicate CallOk(rejected: set<string>, call: Call) {
    call.Force? ==> call.rejected in rejected
  }

  /** A decision taken on what is still stored, for a reason. */
  predicate DecisionOk(stored: Credentials, d: Decision) {
    d.loaded == stored && Justified(d)
  }

  predicate Justified(d: Decision) {
    if d.call.Force? then d.loaded.accessToken == d.call.rejected else !FarFromExpiry(d.loaded, d.at)
  }

  predicate ResultOk(call: Call, result: Option<Access>) {
    call.Force? && result.Some? ==> result.value.accessToken != call.rejected
  }

  /** A refresh that replaced a token known to be rejected. */
  predicate ReplacesRejected(e: Entry) {
    e.decision.loaded.accessToken in e.known
  }

  /** None of the tokens so replaced. */
  predicate Unused(log: seq<Entry>, token: string) {
    forall k | 0 <= k < |log| && ReplacesRejected(log[k]) :: token != log[k].decision.loaded.accessToken
  }

  predicate AnswerOk(d: Decision, known: set<string>, updated: Credentials) {
    && CallOk(known, d.call)
    && updated.accessToken !in known
    && updated.localSecret == d.loaded.localSecret
  }

  predicate ThreadOk(stored: Credentials, rejected: set<string>, log: seq<Entry>, t: Thread) {
    match t
    case Idle => true
    case FastLoaded(_) => true
    case Waiting(call) => CallOk(rejected, call)
    case Locked(call) => CallOk(rejected, call)
    case Loaded(call, c) => CallOk(rejected, call) && c == stored
    case Calling(d) => CallOk(rejected, d.call) && DecisionOk(stored, d)
    case Received(d, known, _, _, updated) =>
      && CallOk(rejected, d.call) && DecisionOk(stored, d) && known <= rejected
      && AnswerOk(d, known, updated) && Unused(log, updated.accessToken)
    case Leaving(call, result) => ResultOk(call, result)
    case Returned(call, result) => ResultOk(call, result)
  }

  predicate EntryOk(rejected: set<string>, e: Entry) {
    && Justified(e.decision) && e.known <= rejected && AnswerOk(e.decision, e.known, e.after) && Validates(e.after)
  }

  predicate AllOk(rejected: set<string>, log: seq<Entry>) {
    forall k | 0 <= k < |log| :: EntryOk(rejected, log[k])
  }

  /** Each refresh starts from what the one before it stored. */
  predicate Chained(initial: Credentials, stored: Credentials, log: seq<Entry>) {
    && (forall k | 0 <= k < |log| :: log[k].decision.loaded == Before(initial, log, k))
    && stored == Before(initial, log, |log|)
  }

  /** What was stored before the k-th refresh. */
  function Before(initial: Credentials, log: seq<Entry>, k: nat): Credentials
    requires k <= |log|
  {
    if k == 0 then initial else log[k - 1].after
  }

  predicate LogOk(initial: Credentials, stored: Credentials, rejected: set<string>, log: seq<Entry>) {
    && AllOk(rejected, log)
    && Chained(initial, stored, log)
    && Unused(log, stored.accessToken)
    && AtMostOnce(log)
  }

  /** A token known to be rejected is replaced once. */
  predicate AtMostOnce(log: seq<Entry>) {
    forall k, l | 0 <= k < l < |log| && ReplacesRejected(log[k]) ::
      log[l].decision.loaded.accessToken != log[k].decision.loaded.accessToken
  }

  predicate Exclusive(owner: Option<nat>, threads: seq<Thread>) {
    forall i | 0 <= i < |threads| :: Critical(threads[i]) <==> owner == Some(i)
  }

  predicate Safe(initial: Credentials, s: State) {
    && Validates(s.stored)
    && Exclusive(s.owner, s.threads)
    && (forall i | 0 <= i < |s.threads| :: ThreadOk(s.stored, s.rejected, s.log, s.threads[i]))
    && LogOk(initial, s.stored, s.rejected, s.log)
  }

  // ---- Every step keeps it --------------------------------------------------------

  /** More rejected tokens hurt no one. */
  lemma MoreRejected(stored: Credentials, rejected: set<string>, more: set<string>, log: seq<Entry>, t: Thread)
    requires ThreadOk(stored, rejected, log, t) && rejected <= more
    ensures ThreadOk(stored, more, log, t)
  {
  }

  lemma LogWithMore(initial: Credentials, stored: Credentials, rejected: set<string>, more: set<string>,
                    log: seq<Entry>)
    requires LogOk(initial, stored, rejected, log) && rejected <= more
    ensures LogOk(initial, stored, more, log)
  {
  }

  /** A thread outside the lock does not depend on what is stored. */
  lemma OutsideTheLock(stored: Credentials, rejected: set<string>, log: seq<Entry>, t: Thread, other: Credentials,
                       more: seq<Entry>)
    requires ThreadOk(stored, rejected, log, t) && !Critical(t)
    ensures ThreadOk(other, rejected, more, t)
  {
  }

  /** One thread moves on; nothing is stored. */
  lemma PutKeeps(initial: Credentials, s: State, i: nat, t: Thread, r: State)
    requires Safe(initial, s) && i < |s.threads|
    requires r.threads == s.threads[i := t] && r.stored == s.stored && r.log == s.log
    requires s.rejected <= r.rejected
    requires ThreadOk(s.stored, r.rejected, s.log, t)
    requires if Critical(t) then r.owner == Some(i) && (Critical(s.threads[i]) || s.owner.None?)
             else r.owner == if Critical(s.threads[i]) then None else s.owner
    ensures Safe(initial, r)
  {
    forall j | 0 <= j < |r.threads|
      ensures ThreadOk(r.stored, r.rejected, r.log, r.threads[j])
      ensures Critical(r.threads[j]) <==> r.owner == Some(j)
    {
      if j != i {
        MoreRejected(s.stored, s.rejected, r.rejected, s.log, s.threads[j]);
      }
    }
    LogWithMore(initial, s.stored, s.rejected, r.rejected, s.log);
  }

  lemma UnusedAppend(log: seq<Entry>, e: Entry, token: string)
    requires Unused(log, token) && (ReplacesRejected(e) ==> token != e.decision.loaded.accessToken)
    ensures Unused(log + [e], token)
  {
  }

  lemma OnceAppend(log: seq<Entry>, e: Entry)
    requires AtMostOnce(log) && Unused(log, e.decision.loaded.accessToken)
    ensures AtMostOnce(log + [e])
  {
    var more := log + [e];
    assert forall k | 0 <= k < |log| :: more[k] == log[k];
  }

  lemma BeforeAppend(initial: Credentials, log: seq<Entry>, e: Entry)
    ensures forall k | 0 <= k <= |log| :: Before(initial, log + [e], k) == Before(initial, log, k)
    ensures Before(initial, log + [e], |log| + 1) == e.after
  {
  }

  /** The owner replaces what is stored, and whatever token that was is not stored again
      if it is known to be rejected. */
  lemma SaveKeepsLog(initial: Credentials, stored: Credentials, rejected: set<string>, log: seq<Entry>, e: Entry)
    requires LogOk(initial, stored, rejected, log)
    requires EntryOk(rejected, e) && e.decision.loaded == stored && Unused(log, e.after.accessToken)
    ensures LogOk(initial, e.after, rejected, log + [e])
  {
    OnceAppend(log, e);
    UnusedAppend(log, e, e.after.accessToken);
    OkAppend(rejected, log, e);
    ChainAppend(initial, stored, log, e);
  }

  lemma OkAppend(rejected: set<string>, log: seq<Entry>, e: Entry)
    requires AllOk(rejected, log) && EntryOk(rejected, e)
    ensures AllOk(rejected, log + [e])
  {
    var more := log + [e];
    forall k | 0 <= k < |more|
      ensures EntryOk(rejected, more[k])
    {
      if k < |log| {
        assert more[k] == log[k];
      } else {
        assert more[k] == e;
      }
    }
  }

  lemma ChainAppend(initial: Credentials, stored: Credentials, log: seq<Entry>, e: Entry)
    requires Chained(initial, stored, log) && e.decision.loaded == stored
    ensures Chained(initial, e.after, log + [e])
  {
    BeforeAppend(initial, log, e);
  }

  lemma SaveKeeps(initial: Credentials, s: State, i: nat, outcome: SaveOutcome)
    requires Safe(initial, s) && i < |s.threads| && s.threads[i].Received?
    ensures Safe(initial, Saved(s, i, s.threads[i], outcome))
  {
    var t, r := s.threads[i], Saved(s, i, s.threads[i], outcome);
    if !Validates(t.updated) || outcome.NotPersisted? {
      PutKeeps(initial, s, i, Leaving(t.decision.call, None), r);
    } else {
      SaveKeepsLog(initial, s.stored, s.rejected, s.log,
                   Entry(t.decision, t.known, t.response, t.answeredAt, t.updated));
      forall j | 0 <= j < |r.threads|
        ensures ThreadOk(r.stored, r.rejected, r.log, r.threads[j])
      {
        if j != i {
          OutsideTheLock(s.stored, s.rejected, s.log, s.threads[j], r.stored, r.log);
        }
      }
    }
  }

  lemma AnswerKeeps(initial: Credentials, s: State, i: nat, a: Action)
    requires Safe(initial, s) && i < |s.threads| && s.threads[i].Calling? && a.Answer? && Honest(s, i, a)
    ensures Safe(initial, Step(s, i, a))
  {
    var d := s.threads[i].decision;
    if a.response.None? || !Acceptable(a.response.value) {
      PutKeeps(initial, s, i, Leaving(d.call, None), Step(s, i, a));
    } else {
      var updated := Refreshed(d.loaded, a.response.value, s.now);
      assert Unused(s.log, updated.accessToken);
      PutKeeps(initial, s, i, Received(d, s.rejected, a.response.value, s.now, updated), Step(s, i, a));
    }
  }

  lemma CheckKeeps(initial: Credentials, s: State, i: nat)
    requires Safe(initial, s) && i < |s.threads| && s.threads[i].Loaded?
    ensures Safe(initial, Step(s, i, Check))
  {
    var t := s.threads[i];
    PutKeeps(initial, s, i, Decide(t.call, t.credentials, s.now), Step(s, i, Check));
  }

  lemma BeginKeeps(initial: Credentials, s: State, i: nat, rejected: string)
    requires Safe(initial, s) && i < |s.threads| && (s.threads[i].Idle? || s.threads[i].Returned?)
    ensures Safe(initial, Begin(s, i, rejected))
  {
    if IsBlank(rejected) {
      PutKeeps(initial, s, i, Returned(Force(rejected), None), Begin(s, i, rejected));
    } else {
      PutKeeps(initial, s, i, Waiting(Force(rejected)), Begin(s, i, rejected));
    }
  }

  lemma FastLoadKeeps(initial: Credentials, s: State, i: nat, ok: bool)
    requires Safe(initial, s) && i < |s.threads| && (s.threads[i].Idle? || s.threads[i].Returned?)
    ensures Safe(initial, Step(s, i, FastLoad(ok)))
  {
    if ok {
      PutKeeps(initial, s, i, FastLoaded(s.stored), Step(s, i, FastLoad(ok)));
    } else {
      PutKeeps(initial, s, i, Returned(GetValid, None), Step(s, i, FastLoad(ok)));
    }
  }

  lemma FastCheckKeeps(initial: Credentials, s: State, i: nat)
    requires Safe(initial, s) && i < |s.threads| && s.threads[i].FastLoaded?
    ensures Safe(initial, Step(s, i, FastCheck))
  {
    var c := s.threads[i].credentials;
    if FarFromExpiry(c, s.now) {
      PutKeeps(initial, s, i, Returned(GetValid, Some(AccessFrom(c))), Step(s, i, FastCheck));
    } else {
      PutKeeps(initial, s, i, Waiting(GetValid), Step(s, i, FastCheck));
    }
  }

  lemma LockKeeps(initial: Credentials, s: State, i: nat)
    requires Safe(initial, s) && i < |s.threads|
    ensures Safe(initial, Step(s, i, Lock))
  {
    var t := s.threads[i];
    if t.Waiting? && s.owner.None? {
      PutKeeps(initial, s, i, Locked(t.call), Step(s, i, Lock));
    }
  }

  lemma LoadKeeps(initial: Credentials, s: State, i: nat, ok: bool)
    requires Safe(initial, s) && i < |s.threads|
    ensures Safe(initial, Step(s, i, Load(ok)))
  {
    var t := s.threads[i];
    if t.Locked? {
      if ok {
        PutKeeps(initial, s, i, Loaded(t.call, s.stored), Step(s, i, Load(ok)));
      } else {
        PutKeeps(initial, s, i, Leaving(t.call, None), Step(s, i, Load(ok)));
      }
    }
  }

  lemma UnlockKeeps(initial: Credentials, s: State, i: nat)
    requires Safe(initial, s) && i < |s.threads|
    ensures Safe(initial, Step(s, i, Unlock))
  {
    var t := s.threads[i];
    if t.Leaving? {
      PutKeeps(initial, s, i, Returned(t.call, t.result), Step(s, i, Unlock));
    }
  }

  lemma StepKeeps(initial: Credentials, s: State, i: nat, a: Action)
    requires Safe(initial, s) && Honest(s, i, a)
    ensures Safe(initial, Step(s, i, a))
  {
    if i < |s.threads| && !a.Tick? {
      var t := s.threads[i];
      match a
      case ForceRefresh(rejected) => if t.Idle? || t.Returned? { BeginKeeps(initial, s, i, rejected); }
      case FastLoad(ok) => if t.Idle? || t.Returned? { FastLoadKeeps(initial, s, i, ok); }
      case FastCheck => if t.FastLoaded? { FastCheckKeeps(initial, s, i); }
      case Answer(_) => if s.threads[i].Calling? { AnswerKeeps(initial, s, i, a); }
      case Save(outcome) => if s.threads[i].Received? { SaveKeeps(initial, s, i, outcome); }
      case Check => if s.threads[i].Loaded? { CheckKeeps(initial, s, i); }
      case Lock => LockKeeps(initial, s, i);
      case Load(ok) => LoadKeeps(initial, s, i, ok);
      case Unlock => UnlockKeeps(initial, s, i);
    }
  }

  lemma {:induction false} EveryRunSafe(stored: Credentials, threads: nat, now: int, moves: seq<Move>)
    requires Validates(stored) && HonestRun(Initial(stored, threads, now), moves)
    ensures Safe(stored, Run(Initial(stored, threads, now), moves))
  {
    if moves != [] {
      var n := |moves| - 1;
      EveryRunSafe(stored, threads, now, moves[..n]);
      StepKeeps(stored, Run(Initial(stored, threads, now), moves[..n]), moves[n].thread, moves[n].action);
    }
  }

  // ---- What follows -----------------------------------------------------------------

  /** A rejected token is refreshed away at most once: of two refreshes, the later one
      never starts from a token that the earlier one replaced knowing it rejected. In
      particular no two refreshes answer the rejection of the same token. */
  lemma OneRefreshPerRejectedToken(stored: Credentials, threads: nat, now: int, moves: seq<Move>)
    requires Validates(stored) && HonestRun(Initial(stored, threads, now), moves)
    ensures var log := Run(Initial(stored, threads, now), moves).log;
            && AtMostOnce(log)
            && forall k, l | 0 <= k < l < |log|
                && log[k].decision.call.Force? :: log[k].decision.call != log[l].decision.call
  {
    EveryRunSafe(stored, threads, now, moves);
    var s := Run(Initial(stored, threads, now), moves);
    forall k, l | 0 <= k < l < |s.log| && s.log[k].decision.call.Force?
      ensures s.log[k].decision.call != s.log[l].decision.call
    {
      assert EntryOk(s.rejected, s.log[k]) && EntryOk(s.rejected, s.log[l]);
      assert ReplacesRejected(s.log[k]);
    }
  }

  /** A forced refresh that returns a token returns another one than was rejected. */
  lemma AnotherTokenIsReturned(stored: Credentials, threads: nat, now: int, moves: seq<Move>, i: nat)
    requires Validates(stored) && HonestRun(Initial(stored, threads, now), moves)
    ensures var s := Run(Initial(stored, threads, now), moves);
            i < |s.threads| && s.threads[i].Returned? && s.threads[i].call.Force? && s.threads[i].result.Some? ==>
              s.threads[i].result.value.accessToken != s.threads[i].call.rejected
  {
    EveryRunSafe(stored, threads, now, moves);
    var s := Run(Initial(stored, threads, now), moves);
    if i < |s.threads| {
      assert ThreadOk(s.stored, s.rejected, s.log, s.threads[i]);
    }
  }

  function SameToken(token: string): Response {
    Response(token, "", None, 3600)
  }

  /** One thread forces a refresh of a token and the provider answers with the same one. */
  function Once(token: string): seq<Move> {
    [Move(0, ForceRefresh(token)), Move(0, Lock), Move(0, Load(true)), Move(0, Check)] +
    [Move(0, Answer(Some(SameToken(token)))), Move(0, Save(Persisted)), Move(0, Unlock)]
  }

  lemma {:induction false} RunAppend(s: State, a: seq<Move>, b: seq<Move>)
    ensures Run(s, a + b) == Run(Run(s, a), b)
  {
    if b == [] {
      assert a + b == a;
    } else {
      RunAppend(s, a, b[..|b| - 1]);
      assert (a + b)[..|a + b| - 1] == a + b[..|b| - 1];
    }
  }

  lemma RunOne(s: State, m: Move)
    ensures Run(s, [m]) == Step(s, m.thread, m.action)
  {
    assert [m][..0] == [];
  }

  lemma RunThree(s: State, a: Move, b: Move, c: Move)
    ensures Run(s, [a, b, c]) ==
            Step(Step(Step(s, a.thread, a.action), b.thread, b.action), c.thread, c.action)
  {
    assert [a, b, c] == [a] + ([b] + [c]);
    RunOne(s, a);
    RunAppend(s, [a], [b] + [c]);
    var s1 := Run(s, [a]);
    RunOne(s1, b);
    RunAppend(s1, [b], [c]);
    RunOne(Run(s1, [b]), c);
  }

  /** A lone thread between two calls. */
  predicate Resting(s: State, token: string) {
    && |s.threads| == 1 && (s.threads[0].Idle? || s.threads[0].Returned?) && s.owner.None?
    && s.stored.accessToken == token && Validates(s.stored)
  }

  function Asking(token: string): seq<Move> {
    [Move(0, ForceRefresh(token)), Move(0, Lock), Move(0, Load(true)), Move(0, Check)]
  }

  lemma AskOnce(s: State, token: string)
    requires Resting(s, token)
    ensures var r := Run(s, Asking(token));
            && r.threads == [Calling(Decision(Force(token), s.stored, s.now))]
            && r.stored == s.stored && r.log == s.log && r.now == s.now
            && r.owner == Some(0) && r.settled == s.settled
  {
    var moves := [Move(0, ForceRefresh(token)), Move(0, Lock), Move(0, Load(true))];
    RunThree(s, moves[0], moves[1], moves[2]);
    var s3 := Run(s, moves);
    assert s3.threads == [Loaded(Force(token), s.stored)];
    RunAppend(s, moves, [Move(0, Check)]);
    RunOne(s3, Move(0, Check));
    assert moves + [Move(0, Check)] == Asking(token);
  }

  lemma AnswerOnce(s: State, token: string, d: Decision)
    requires s.threads == [Calling(d)] && d.call == Force(token) && !IsBlank(token)
    requires Validates(Refreshed(d.loaded, SameToken(token), s.now))
    ensures var r := Run(s, [Move(0, Answer(Some(SameToken(token)))), Move(0, Save(Persisted)), Move(0, Unlock)]);
            && Resting(r, token) && r.stored == Refreshed(d.loaded, SameToken(token), s.now) && r.now == s.now
            && |r.log| == |s.log| + 1 && r.log[..|s.log|] == s.log && r.log[|s.log|].decision == d
  {
    RunThree(s, Move(0, Answer(Some(SameToken(token)))), Move(0, Save(Persisted)), Move(0, Unlock));
    var a := Step(s, 0, Answer(Some(SameToken(token))));
    var updated := Refreshed(d.loaded, SameToken(token), s.now);
    assert a.threads == [Received(d, s.rejected, SameToken(token), s.now, updated)];
    SavedOnce(a, d, s.rejected, SameToken(token), s.now, updated);
  }

  lemma SavedOnce(a: State, d: Decision, known: set<string>, response: Response, at: int, updated: Credentials)
    requires a.threads == [Received(d, known, response, at, updated)] && Validates(updated)
    ensures var r := Step(Step(a, 0, Save(Persisted)), 0, Unlock);
            && r.threads == [Returned(d.call, Some(AccessFrom(updated)))] && r.owner.None?
            && r.stored == updated && r.now == a.now && r.log == a.log + [Entry(d, known, response, at, updated)]
  {
    var b := Step(a, 0, Save(Persisted));
    assert b.threads == [Leaving(d.call, Some(AccessFrom(updated)))];
  }

  lemma RefreshOnce(s: State, token: string)
    requires Resting(s, token) && Validates(Refreshed(s.stored, SameToken(token), s.now))
    ensures var r := Run(s, Once(token));
            && Resting(r, token) && r.stored == Refreshed(s.stored, SameToken(token), s.now) && r.now == s.now
            && |r.log| == |s.log| + 1 && r.log[..|s.log|] == s.log && r.log[|s.log|].decision.call == Force(token)
  {
    var ask := Asking(token);
    AskOnce(s, token);
    AnswerOnce(Run(s, ask), token, Decision(Force(token), s.stored, s.now));
    RunAppend(s, ask, [Move(0, Answer(Some(SameToken(token)))), Move(0, Save(Persisted)), Move(0, Unlock)]);
  }

  /** Honesty is needed: with a provider that hands a rejected token out again, two
      refreshes answer the same rejection. */
  lemma ReissueRefreshesAgain(stored: Credentials, now: int)
    requires Validates(stored) && now + 3600 != ZERO_TIME
    ensures var log := Run(Initial(stored, 1, now), Once(stored.accessToken) + Once(stored.accessToken)).log;
            |log| == 2 && log[0].decision.call == log[1].decision.call
  {
    var token := stored.accessToken;
    var s0 := Initial(stored, 1, now);
    assert TrimSpace("") == "";
    RefreshOnce(s0, token);
    RefreshOnce(Run(s0, Once(token)), token);
    RunAppend(s0, Once(token), Once(token));
  }
}
