/** The store of continuation states: a map whose entries expire and are dropped when
    an expired one is asked for. */
module TurnState {
  import opened Text

  /** Times and durations in nanoseconds; the default lifetime is 30 minutes. */
  const DEFAULT_TTL := 30 * 60 * 1000000000

  datatype Entry = Entry(value: string, expiresAt: int)

  type Entries = map<string, Entry>

  // ---- What the operations do -----------------------------------------------------

  function Held(entries: Entries, key: string, now: int): Option<string> {
    if !IsBlank(key) && key in entries && now < entries[key].expiresAt then Some(entries[key].value) else None
  }

  function AfterGet(entries: Entries, key: string, now: int): Entries {
    if !IsBlank(key) && key in entries && entries[key].expiresAt <= now then entries - {key} else entries
  }

  function AfterPut(entries: Entries, key: string, state: string, now: int, ttl: int): Entries {
    if IsBlank(key) then entries
    else if TrimSpace(state) == "" then entries - {key}
    else entries[key := Entry(TrimSpace(state), now + ttl)]
  }

  class TurnStateStore {
    const ttl: int
    var entries: Entries

    constructor (ttl: int)
      ensures entries == map[] && this.ttl == (if ttl <= 0 then 1800000000000 else ttl)
    {
      this.ttl := if ttl <= 0 then DEFAULT_TTL else ttl;
      entries := map[];
    }

    method Get(sessionKey: string, now: int) returns (state: string, ok: bool)
      modifies this
      ensures (if ok then Some(state) else None) == Held(old(entries), sessionKey, now)
      ensures !ok ==> state == ""
      ensures entries == AfterGet(old(entries), sessionKey, now)
    {
      if IsBlank(sessionKey) {
        return "", false;
      }
      if sessionKey !in entries {
        return "", false;
      }
      var entry := entries[sessionKey];
      if !(now < entry.expiresAt) {
        entries := entries - {sessionKey};
        return "", false;
      }
      return entry.value, true;
    }

    method Put(sessionKey: string, state: string, now: int)
      modifies this
      ensures entries == AfterPut(old(entries), sessionKey, state, now, ttl)
    {
      if IsBlank(sessionKey) {
        return;
      }
      var trimmed := TrimSpace(state);
      if trimmed == "" {
        entries := entries - {sessionKey};
        return;
      }
      entries := entries[sessionKey := Entry(trimmed, now + ttl)];
    }

    method Delete(sessionKey: string)
      modifies this
      ensures entries == old(entries) - {sessionKey}
    {
      entries := entries - {sessionKey};
    }
  }

  // ---- Against the history ----------------------------------------------------------

  datatype Operation =
    | GetAt(key: string, at: int)
    | PutAt(key: string, state: string, at: int)
    | DeleteAt(key: string, at: int)

  function Apply(entries: Entries, op: Operation, ttl: int): Entries {
    match op
    case GetAt(key, at) => AfterGet(entries, key, at)
    case PutAt(key, state, at) => AfterPut(entries, key, state, at, ttl)
    case DeleteAt(key, _) => entries - {key}
  }

  function Replayed(history: seq<Operation>, ttl: int): Entries {
    if history == [] then map[]
    else Apply(Replayed(history[..|history| - 1], ttl), history[|history| - 1], ttl)
  }

  /** The answer without any entries: the last write to the key decides, if it is a put of
      something less than ttl ago. */
  function Answer(history: seq<Operation>, key: string, now: int, ttl: int): Option<string> {
    if history == [] then None
    else
      var last := history[|history| - 1];
      if last.GetAt? || last.key != key then Answer(history[..|history| - 1], key, now, ttl)
      else if last.PutAt? && TrimSpace(last.state) != "" && now < last.at + ttl then Some(TrimSpace(last.state))
      else None
  }

  /** No operation happens before an earlier one or after now. */
  predicate Monotone(history: seq<Operation>, now: int) {
    history != [] ==> history[|history| - 1].at <= now && Monotone(history[..|history| - 1], history[|history| - 1].at)
  }

  lemma {:induction false} MonotoneLater(history: seq<Operation>, now: int, later: int)
    requires Monotone(history, now) && now <= later
    ensures Monotone(history, later)
  {
  }

  /** A get since the last write to the key has found it expired. */
  predicate Gone(history: seq<Operation>, key: string, ttl: int) {
    history != [] &&
    var front, last := history[..|history| - 1], history[|history| - 1];
    if last.key != key then Gone(front, key, ttl)
    else last.GetAt? && (Gone(front, key, ttl) || Answer(front, key, last.at, ttl).None?)
  }

  /** Whatever the clock does, the store answers as its history says until a get has found
      the key expired, and nothing from then to the next write. */
  lemma {:induction false} StoreIsHistory(history: seq<Operation>, key: string, now: int, ttl: int)
    requires !IsBlank(key)
    ensures Held(Replayed(history, ttl), key, now) ==
            if Gone(history, key, ttl) then None else Answer(history, key, now, ttl)
    decreases |history|
  {
    if history != [] {
      var front, last := history[..|history| - 1], history[|history| - 1];
      StoreIsHistory(front, key, now, ttl);
      if last.key == key {
        StoreIsHistory(front, key, last.at, ttl);
      }
    }
  }

  /** Once expired, expired at every later time. */
  lemma {:induction false} ExpiredStays(history: seq<Operation>, key: string, now: int, later: int, ttl: int)
    requires now <= later && Answer(history, key, now, ttl).None?
    ensures Answer(history, key, later, ttl).None?
  {
    if history != [] && (history[|history| - 1].GetAt? || history[|history| - 1].key != key) {
      ExpiredStays(history[..|history| - 1], key, now, later, ttl);
    }
  }

  lemma {:induction false} GoneIsExpired(history: seq<Operation>, key: string, now: int, ttl: int)
    requires Monotone(history, now) && Gone(history, key, ttl)
    ensures Answer(history, key, now, ttl).None?
  {
    var front, last := history[..|history| - 1], history[|history| - 1];
    if Gone(front, key, ttl) {
      GoneIsExpired(front, key, last.at, ttl);
    }
    ExpiredStays(front, key, last.at, now, ttl);
  }

  /** Under a monotone clock the store answers exactly as its history says. */
  lemma StoreRefinesHistory(history: seq<Operation>, key: string, now: int, ttl: int)
    requires Monotone(history, now) && !IsBlank(key)
    ensures Held(Replayed(history, ttl), key, now) == Answer(history, key, now, ttl)
  {
    StoreIsHistory(history, key, now, ttl);
    if Gone(history, key, ttl) {
      GoneIsExpired(history, key, now, ttl);
    }
  }

  /** The writes to one key. */
  function Writes(history: seq<Operation>, key: string): seq<Operation> {
    if history == [] then []
    else
      var last := history[|history| - 1];
      Writes(history[..|history| - 1], key) + (if last.GetAt? || last.key != key then [] else [last])
  }

  lemma {:induction false} WritesMonotone(history: seq<Operation>, key: string, now: int)
    requires Monotone(history, now)
    ensures Monotone(Writes(history, key), now)
  {
    if history != [] {
      var front, last := history[..|history| - 1], history[|history| - 1];
      WritesMonotone(front, key, last.at);
      MonotoneLater(Writes(front, key), last.at, now);
      if Writes(history, key) != Writes(front, key) {
        assert Writes(history, key)[..|Writes(front, key)|] == Writes(front, key);
      }
    }
  }

  lemma {:induction false} WritesDecide(history: seq<Operation>, key: string, now: int, ttl: int)
    ensures Answer(Writes(history, key), key, now, ttl) == Answer(history, key, now, ttl)
  {
    if history != [] {
      var front, last := history[..|history| - 1], history[|history| - 1];
      WritesDecide(front, key, now, ttl);
      if !last.GetAt? && last.key == key {
        assert Writes(history, key)[|Writes(front, key)|] == last;
      } else {
        assert Writes(history, key) == Writes(front, key);
      }
    }
  }

  /** Gets, and so the dropping of expired entries, and operations on other keys change
      no answer. */
  lemma OthersAreUnobservable(history: seq<Operation>, key: string, now: int, ttl: int)
    requires Monotone(history, now) && !IsBlank(key)
    ensures Held(Replayed(history, ttl), key, now) == Held(Replayed(Writes(history, key), ttl), key, now)
  {
    StoreRefinesHistory(history, key, now, ttl);
    WritesMonotone(history, key, now);
    StoreRefinesHistory(Writes(history, key), key, now, ttl);
    WritesDecide(history, key, now, ttl);
  }

  /** With an injected clock that goes back, dropping an expired entry is observed. */
  lemma ClockGoingBack(key: string)
    requires !IsBlank(key)
    ensures var history := [PutAt(key, "s", 0), GetAt(key, 10)];
            Held(Replayed(history, 10), key, 5) == None && Answer(history, key, 5, 10) == Some("s")
  {
    var history := [PutAt(key, "s", 0), GetAt(key, 10)];
    assert history[..1] == [PutAt(key, "s", 0)] && history[..1][..0] == [];
    TrimSpaceIsTrimmed("s");
    assert !IsSpace("s"[0]);
  }
}
