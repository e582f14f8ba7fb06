/** Token refresh by any number of threads that share a credential store: every
    interleaving of their steps is a run of this state machine. */
module TokenManager {
  import opened Text

  /** Times count from Go's zero time. */
  const ZERO_TIME := 0
  const REFRESH_BEFORE_EXPIRY := 180
  const CREDENTIALS_VERSION := 1

  datatype Credentials = Credentials(
    version: int, accessToken: string, refreshToken: string, accountId: string, localSecret: string, expiresAt: int)

  /** What the store accepts. */
  predicate Validates(c: Credentials) {
    && c.version == CREDENTIALS_VERSION
    && !IsBlank(c.accessToken) && !IsBlank(c.refreshToken) && !IsBlank(c.accountId) && !IsBlank(c.localSecret)
    && c.expiresAt != ZERO_TIME
    && Printable(c.accessToken) && Printable(c.refreshToken) && Printable(c.accountId) && Printable(c.localSecret)
  }

  predicate Printable(s: string) {
    forall i | 0 <= i < |s| :: s[i] >= ' ' && s[i] != '\U{7f}'
  }

  datatype Access = Access(accessToken: string, accountId: string)

  function AccessFrom(c: Credentials): Access {
    Access(c.accessToken, c.accountId)
  }

  /** A token response; the account is the one its ID token names, if it names one. */
  datatype Response = Response(accessToken: string, refreshToken: string, account: Option<string>, expiresIn: int)

  /** What the endpoint's client lets through. */
  predicate Acceptable(r: Response) {
    !IsBlank(r.accessToken) && r.expiresIn > 0
  }

  function Rotated(current: string, r: Response): string {
    NonEmpty(TrimSpace(r.refreshToken), current)
  }

  function Refreshed(c: Credentials, r: Response, now: int): Credentials {
    c.(accessToken := r.accessToken, expiresAt := now + r.expiresIn,
       refreshToken := Rotated(c.refreshToken, r),
       accountId := if r.account.Some? then r.account.value else c.accountId)
  }

  predicate FarFromExpiry(c: Credentials, now: int) {
    c.expiresAt > now + REFRESH_BEFORE_EXPIRY
  }

  // ---- Threads -------------------------------------------------------------------

  datatype Call = GetValid | Force(rejected: string)

  /** The decision to refresh: when, and what it was based on. */
  datatype Decision = Decision(call: Call, loaded: Credentials, at: int)

  datatype Thread =
    | Idle
    | FastLoaded(credentials: Credentials)
    | Waiting(call: Call)
    | Locked(call: Call)
    | Loaded(call: Call, credentials: Credentials)
    | Calling(decision: Decision)
    | Received(decision: Decision, known: set<string>, response: Response, answeredAt: int, updated: Credentials)
    | Leaving(call: Call, result: Option<Access>)
    | Returned(call: Call, result: Option<Access>)

  /** A successful refresh: what was replaced by what, why, which response brought it and
      when, and which tokens were known to be rejected then. */
  datatype Entry = Entry(
    decision: Decision, known: set<string>, response: Response, answeredAt: int, after: Credentials)

  /** A response, and whether what it brought was saved. */
  datatype Settled = Settled(response: Response, saved: bool)

  datatype State = State(
    stored: Credentials, owner: Option<nat>, threads: seq<Thread>, now: int,
    rejected: set<string>, log: seq<Entry>, settled: seq<Settled>)

  /** How a save ends: the new file is in place, it is not, or it is but an error is
      reported all the same. */
  datatype SaveOutcome = Persisted | NotPersisted | PersistedWithError

  datatype Action =
    | Tick(seconds: nat)
    | ForceRefresh(rejected: string)
    | FastLoad(ok: bool)
    | FastCheck
    | Lock
    | Load(ok: bool)
    | Check
    | Answer(response: Option<Response>)
    | Save(outcome: SaveOutcome)
    | Unlock

  function Put(s: State, i: nat, t: Thread): State
    requires i < |s.threads|
  {
    s.(threads := s.threads[i := t])
  }

  /** ForceRefresh begins; rejecting no token at all is refused at once. */
  function Begin(s: State, i: nat, rejected: string): State
    requires i < |s.threads|
  {
    if IsBlank(rejected) then Put(s, i, Returned(Force(rejected), None))
    else Put(s, i, Waiting(Force(rejected))).(rejected := s.rejected + {rejected})
  }

  /** Under the lock: is there anything to refresh? */
  function Decide(call: Call, c: Credentials, now: int): Thread {
    if call.Force? && c.accessToken != call.rejected then Leaving(call, Some(AccessFrom(c)))
    else if call.GetValid? && FarFromExpiry(c, now) then Leaving(call, Some(AccessFrom(c)))
    else if IsBlank(c.refreshToken) then Leaving(call, None)
    else Calling(Decision(call, c, now))
  }

  function Saved(s: State, i: nat, t: Thread, outcome: SaveOutcome): State
    requires i < |s.threads| && t.Received?
  {
    if !Validates(t.updated) || outcome.NotPersisted? then
      Put(s, i, Leaving(t.decision.call, None)).(settled := s.settled + [Settled(t.response, false)])
    else
      var result := if outcome.Persisted? then Some(AccessFrom(t.updated)) else None;
      Put(s, i, Leaving(t.decision.call, result))
      .(stored := t.updated, log := s.log + [Entry(t.decision, t.known, t.response, t.answeredAt, t.updated)],
        settled := s.settled + [Settled(t.response, true)])
  }

  /** Thread i takes a step; an action that does not fit its place changes nothing. */
  function Step(s: State, i: nat, a: Action): State {
    if a.Tick? then s.(now := s.now + a.seconds)
    else if i >= |s.threads| then s
    else
      var t := s.threads[i];
      match a
      case ForceRefresh(rejected) => if t.Idle? || t.Returned? then Begin(s, i, rejected) else s
      case FastLoad(ok) =>
        if !(t.Idle? || t.Returned?) then s
        else if ok then Put(s, i, FastLoaded(s.stored)) else Put(s, i, Returned(GetValid, None))
      case FastCheck =>
        if !t.FastLoaded? then s
        else if FarFromExpiry(t.credentials, s.now) then Put(s, i, Returned(GetValid, Some(AccessFrom(t.credentials))))
        else Put(s, i, Waiting(GetValid))
      case Lock => if t.Waiting? && s.owner.None? then Put(s, i, Locked(t.call)).(owner := Some(i)) else s
      case Load(ok) =>
        if !t.Locked? then s
        else if ok then Put(s, i, Loaded(t.call, s.stored)) else Put(s, i, Leaving(t.call, None))
      case Check => if t.Loaded? then Put(s, i, Decide(t.call, t.credentials, s.now)) else s
      case Answer(response) =>
        if !t.Calling? then s
        else if response.None? || !Acceptable(response.value) then Put(s, i, Leaving(t.decision.call, None))
        else
          Put(s, i, Received(t.decision, s.rejected, response.value, s.now,
                             Refreshed(t.decision.loaded, response.value, s.now)))
      case Save(outcome) => if t.Received? then Saved(s, i, t, outcome) else s
      case Unlock => if t.Leaving? then Put(s, i, Returned(t.call, t.result)).(owner := None) else s
      case Tick(_) => s
  }

  datatype Move = Move(thread: nat, action: Action)

  function Run(s: State, moves: seq<Move>): State {
    if moves == [] then s
    else Step(Run(s, moves[..|moves| - 1]), moves[|moves| - 1].thread, moves[|moves| - 1].action)
  }

  function Initial(stored: Credentials, threads: nat, now: int): State {
    State(stored, None, seq(threads, _ => Idle), now, {}, [], [])
  }

  // ---- One thread alone: the program -----------------------------------------------

  datatype Outcome = Outcome(stored: Credentials, result: Option<Access>)

  /** What a refresh under the lock leaves stored and returns. */
  function RefreshOutcome(
    stored: Credentials, call: Call, loads: bool, checkedAt: int,
    response: Option<Response>, answeredAt: int, save: SaveOutcome): Outcome
  {
    if !loads then Outcome(stored, None)
    else
      match Decide(call, stored, checkedAt)
      case Calling(_) =>
        if response.None? || !Acceptable(response.value) then Outcome(stored, None)
        else
          var updated := Refreshed(stored, response.value, answeredAt);
          if !Validates(updated) || save.NotPersisted? then Outcome(stored, None)
          else Outcome(updated, if save.Persisted? then Some(AccessFrom(updated)) else None)
      case decided => Outcome(stored, if decided.Leaving? then decided.result else None)
  }

  class Manager {
    var stored: Credentials

    constructor (stored: Credentials)
      ensures this.stored == stored
    {
      this.stored := stored;
    }

    /** Without a lock first; the refresh looks again under it. */
    method GetValidToken(
      fastLoads: bool, fastAt: int, loads: bool, checkedAt: int, response: Option<Response>, answeredAt: int,
          save: SaveOutcome)
      returns (result: Option<Access>)
      modifies this
      ensures Outcome(stored, result) ==
              if !fastLoads then Outcome(old(stored), None)
              else if FarFromExpiry(old(stored), fastAt) then Outcome(old(stored), Some(AccessFrom(old(stored))))
              else RefreshOutcome(old(stored), GetValid, loads, checkedAt, response, answeredAt, save)
    {
      if !fastLoads {
        return None;
      }
      var credentials := stored;
      if FarFromExpiry(credentials, fastAt) {
        return Some(AccessFrom(credentials));
      }
      result := Refresh(GetValid, loads, checkedAt, response, answeredAt, save);
    }

    method ForceRefresh(
      rejected: string, loads: bool, checkedAt: int, response: Option<Response>, answeredAt: int, save: SaveOutcome)
      returns (result: Option<Access>)
      modifies this
      ensures Outcome(stored, result) ==
              if IsBlank(rejected) then Outcome(old(stored), None)
              else RefreshOutcome(old(stored), Force(rejected), loads, checkedAt, response, answeredAt, save)
    {
      if IsBlank(rejected) {
        return None;
      }
      result := Refresh(Force(rejected), loads, checkedAt, response, answeredAt, save);
    }

    /** The clock, the provider and the file system answer through the parameters. */
    method Refresh(call: Call, loads: bool, checkedAt: int, response: Option<Response>, answeredAt: int,
                   save: SaveOutcome)
      returns (result: Option<Access>)
      modifies this
      ensures Outcome(stored, result) == RefreshOutcome(old(stored), call, loads, checkedAt, response, answeredAt, save)
    {
      if !loads {
        return None;
      }
      var credentials := stored;
      if call.Force? && credentials.accessToken != call.rejected {
        return Some(AccessFrom(credentials));
      }
      if call.GetValid? && FarFromExpiry(credentials, checkedAt) {
        return Some(AccessFrom(credentials));
      }
      if IsBlank(credentials.refreshToken) {
        return None;
      }
      if response.None? || !Acceptable(response.value) {
        return None;
      }
      var r := response.value;
      credentials := credentials.(accessToken := r.accessToken);
      credentials := credentials.(expiresAt := answeredAt + r.expiresIn);
      var rotated := TrimSpace(r.refreshToken);
      if rotated != "" {
        credentials := credentials.(refreshToken := rotated);
      }
      if r.account.Some? {
        credentials := credentials.(accountId := r.account.value);
      }
      if !Validates(credentials) || save.NotPersisted? {
        return None;
      }
      stored := credentials;
      if save.PersistedWithError? {
        return None;
      }
      return Some(AccessFrom(credentials));
    }
  }
}
