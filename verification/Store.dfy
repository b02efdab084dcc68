/** The key-value store every component coordinates through, and what its atomic primitives
    guarantee to callers that race for one key. */
module Store {
  import opened Common

  type Key = string

  datatype Value = Num(n: int) | Text(s: string) | Hash(fields: map<string, string>)

  /** `expiresAt` is None for an entry that never expires. */
  datatype Entry = Entry(value: Value, expiresAt: Option<nat>)

  type Entries = map<Key, Entry>

  /** An entry is still there in the millisecond it expires in. */
  predicate Alive(e: Entry, now: nat) {
    e.expiresAt.None? || e.expiresAt.value >= now
  }

  function Live(m: Entries, now: nat, key: Key): Option<Value> {
    if key in m && Alive(m[key], now) then Some(m[key].value) else None
  }

  /** A ttl of 0 means no expiry. */
  function Expiry(ttl: nat, now: nat): Option<nat> {
    if ttl == 0 then None else Some(now + ttl)
  }

  /** What incr adds to; expired counters start over, money counters never expire. */
  function Count(m: Entries, now: nat, key: Key): int {
    match Live(m, now, key)
    case Some(Num(n)) => n
    case _ => 0
  }

  function Balance(m: Entries, key: Key): int {
    if key in m && m[key].value.Num? then m[key].value.n else 0
  }

  predicate Counter(m: Entries, key: Key) {
    key in m ==> m[key].value.Num?
  }

  function Fields(m: Entries, now: nat, key: Key): map<string, string> {
    match Live(m, now, key)
    case Some(Hash(h)) => h
    case _ => map[]
  }

  function IncrOn(m: Entries, now: nat, key: Key, ttl: nat): Entries {
    m[key := Entry(Num(Count(m, now, key) + 1), Expiry(ttl, now))]
  }

  function SetNXOn(m: Entries, now: nat, key: Key, value: Value, ttl: nat): Entries {
    if Live(m, now, key).Some? then m else m[key := Entry(value, Expiry(ttl, now))]
  }

  class MemoryStore {
    var entries: Entries
    var now: nat

    constructor ()
      ensures entries == map[] && now == 0
    {
      entries, now := map[], 0;
    }

    method Wait(ms: nat)
      modifies this`now
      ensures now == old(now) + ms
    {
      now := now + ms;
    }

    /** Reading an expired entry drops it, which no caller can notice. */
    method Get(key: Key) returns (value: Option<Value>)
      modifies this`entries
      ensures value == Live(old(entries), now, key)
      ensures entries == if key in old(entries) && value.None? then old(entries) - {key} else old(entries)
      ensures forall k :: Live(entries, now, k) == Live(old(entries), now, k)
    {
      if key !in entries { return None; }
      var entry := entries[key];
      if entry.expiresAt.Some? && entry.expiresAt.value < now {
        entries := entries - {key};
        return None;
      }
      return Some(entry.value);
    }

    method Set(key: Key, value: Value, ttl: nat)
      modifies this`entries
      ensures entries == old(entries)[key := Entry(value, Expiry(ttl, now))]
    {
      entries := entries[key := Entry(value, if ttl > 0 then Some(now + ttl) else None)];
    }

    method Delete(key: Key)
      modifies this`entries
      ensures entries == old(entries) - {key}
    {
      entries := entries - {key};
    }

    method Incr(key: Key, ttl: nat) returns (next: int)
      requires Counter(entries, key)
      modifies this`entries
      ensures next == Count(old(entries), now, key) + 1
      ensures entries == IncrOn(old(entries), now, key, ttl)
    {
      var current := 0;
      if key in entries {
        var entry := entries[key];
        if entry.expiresAt.None? || entry.expiresAt.value >= now { current := entry.value.n; }
      }
      next := current + 1;
      entries := entries[key := Entry(Num(next), if ttl > 0 then Some(now + ttl) else None)];
    }

    method SetNX(key: Key, value: Value, ttl: nat) returns (won: bool)
      modifies this`entries
      ensures won <==> Live(old(entries), now, key).None?
      ensures entries == SetNXOn(old(entries), now, key, value, ttl)
    {
      if key in entries {
        var entry := entries[key];
        if entry.expiresAt.None? || entry.expiresAt.value >= now { return false; }
      }
      entries := entries[key := Entry(value, if ttl > 0 then Some(now + ttl) else None)];
      return true;
    }

    /** The hash keeps the expiry of its first field. */
    method Hsetnx(key: Key, field: string, value: string, ttl: nat) returns (won: bool)
      requires Live(entries, now, key).Some? ==> entries[key].value.Hash?
      modifies this`entries
      ensures won <==> field !in Fields(old(entries), now, key)
      ensures !won ==> entries == old(entries)
      ensures won ==> entries == old(entries)[key := Entry(Hash(Fields(old(entries), now, key)[field := value]),
        if Live(old(entries), now, key).Some? then old(entries)[key].expiresAt else Expiry(ttl, now))]
    {
      var hash: map<string, string> := map[];
      var expiry := if ttl > 0 then Some(now + ttl) else None;
      if key in entries {
        var entry := entries[key];
        if entry.expiresAt.None? || entry.expiresAt.value >= now {
          hash, expiry := entry.value.fields, entry.expiresAt;
        }
      }
      if field in hash { return false; }
      entries := entries[key := Entry(Hash(hash[field := value]), expiry)];
      return true;
    }

    method IncrBy(key: Key, delta: int) returns (next: int)
      requires Counter(entries, key)
      modifies this`entries
      ensures next == Balance(old(entries), key) + delta
      ensures entries == old(entries)[key := Entry(Num(next), None)]
    {
      next := (if key in entries then entries[key].value.n else 0) + delta;
      entries := entries[key := Entry(Num(next), None)];
    }

    method DecrIfAtLeast(key: Key, amount: int) returns (ok: bool)
      requires Counter(entries, key)
      modifies this`entries
      ensures ok <==> Balance(old(entries), key) >= amount
      ensures entries == if ok then old(entries)[key := Entry(Num(Balance(old(entries), key) - amount), None)]
                         else old(entries)
    {
      var current := if key in entries then entries[key].value.n else 0;
      if current < amount { return false; }
      entries := entries[key := Entry(Num(current - amount), None)];
      return true;
    }
  }

  // ---- First caller wins ---------------------------------------------------------------------

  /** The replies of incr to callers that arrive at `times`, nobody else touching the key. */
  function Replies(m: Entries, times: seq<nat>, key: Key, ttl: nat): seq<int>
    decreases |times|
  {
    if times == [] then []
    else [Count(m, times[0], key) + 1] + Replies(IncrOn(m, times[0], key, ttl), times[1..], key, ttl)
  }

  predicate Ordered(times: seq<nat>) {
    forall i, j :: 0 <= i < j < |times| ==> times[i] <= times[j]
  }

  /** Claim `i` arrives within `ttl` of the one before it. */
  predicate InTime(times: seq<nat>, ttl: nat, i: nat)
    requires 0 < i < |times|
  {
    ttl == 0 || times[i] <= times[i - 1] + ttl
  }

  lemma {:induction false} ReplyAt(m: Entries, times: seq<nat>, key: Key, ttl: nat, i: nat)
    requires Ordered(times) && i < |times|
    ensures var r := Replies(m, times, key, ttl);
      |r| == |times| && r[0] == Count(m, times[0], key) + 1
      && (i > 0 ==> r[i] == if InTime(times, ttl, i) then r[i - 1] + 1 else 1)
    decreases |times|
  {
    var m' := IncrOn(m, times[0], key, ttl);
    var rest := times[1..];
    if rest != [] {
      ReplyAt(m', rest, key, ttl, if i > 1 then i - 1 else 0);
      if i > 1 { assert InTime(times, ttl, i) == InTime(rest, ttl, i - 1); }
    }
  }

  lemma {:induction false} RepliesArePositive(m: Entries, times: seq<nat>, key: Key, ttl: nat, i: nat)
    requires Ordered(times) && i < |times| == |Replies(m, times, key, ttl)| && Count(m, times[0], key) >= 0
    ensures Replies(m, times, key, ttl)[i] >= 1
  {
    ReplyAt(m, times, key, ttl, i);
    if i > 0 { RepliesArePositive(m, times, key, ttl, i - 1); }
  }

  /** The claim primitive of claimJob and claimUndoDecision: on a fresh key exactly the first caller
      is told 1, if and only if no gap between callers outlasts the ttl. */
  lemma ExactlyOneClaim(m: Entries, times: seq<nat>, key: Key, ttl: nat)
    requires Ordered(times) && times != [] && key !in m
    ensures var r := Replies(m, times, key, ttl);
      && |r| == |times| && r[0] == 1
      && ((forall i :: 0 < i < |times| ==> r[i] != 1) <==> forall i :: 0 < i < |times| ==> InTime(times, ttl, i))
  {
    var r := Replies(m, times, key, ttl);
    ReplyAt(m, times, key, ttl, 0);
    forall i | 0 < i < |times| ensures r[i] == 1 <==> !InTime(times, ttl, i) {
      ReplyAt(m, times, key, ttl, i);
      RepliesArePositive(m, times, key, ttl, i - 1);
    }
  }

  /** RedisStore.incr sets the expiry only on the first write; the wins of a claim key there. */
  function RedisWins(expiresAt: Option<nat>, times: seq<nat>, ttl: nat): seq<bool>
    decreases |times|
  {
    if times == [] then []
    else if expiresAt.Some? && times[0] < expiresAt.value then [false] + RedisWins(expiresAt, times[1..], ttl)
    else [true] + RedisWins(Some(times[0] + ttl), times[1..], ttl)
  }

  /** On Redis a claim is not renewed by later callers, so it can lapse while the job record, which
      every update renews, lives on: a late retry then claims the same job a second time. */
  lemma RedisClaimCanLapseFirst(ttl: nat, updated: nat)
    requires 0 < updated < ttl
    ensures RedisWins(None, [0, updated, ttl], ttl) == [true, false, true]
    ensures Alive(Entry(Num(0), Expiry(ttl, updated)), ttl)
  {
    assert [0, updated, ttl][1..] == [updated, ttl] && [updated, ttl][1..] == [ttl];
    assert RedisWins(Some(ttl), [ttl], ttl) == [true];
    assert RedisWins(Some(ttl), [updated, ttl], ttl) == [false, true];
  }

  // ---- A lease ---------------------------------------------------------------------------------

  /** Which setNX calls on one key succeed, each storing for `ttl`, with no release in between. */
  function Acquisitions(m: Entries, times: seq<nat>, key: Key, ttl: nat): seq<bool>
    decreases |times|
  {
    if times == [] then []
    else [Live(m, times[0], key).None?]
         + Acquisitions(SetNXOn(m, times[0], key, Num(0), ttl), times[1..], key, ttl)
  }

  lemma {:induction false} HeldUntilExpiry(m: Entries, times: seq<nat>, key: Key, ttl: nat, j: nat)
    requires ttl > 0 && Ordered(times) && j < |times| == |Acquisitions(m, times, key, ttl)|
    requires Acquisitions(m, times, key, ttl)[j] && key in m && m[key].expiresAt.Some?
    ensures times[j] > m[key].expiresAt.value
    decreases |times|
  {
    if Live(m, times[0], key).Some? && j > 0 {
      assert times[1..][j - 1] == times[j];
      HeldUntilExpiry(m, times[1..], key, ttl, j - 1);
    }
  }

  lemma {:induction false} AcquisitionsLength(m: Entries, times: seq<nat>, key: Key, ttl: nat)
    ensures |Acquisitions(m, times, key, ttl)| == |times|
    decreases |times|
  {
    if times != [] { AcquisitionsLength(SetNXOn(m, times[0], key, Num(0), ttl), times[1..], key, ttl); }
  }

  /** Two successful setNX calls on one key are more than a ttl apart. */
  lemma {:induction false} LeasesAreDisjoint(m: Entries, times: seq<nat>, key: Key, ttl: nat, i: nat, j: nat)
    requires ttl > 0 && Ordered(times) && i < j < |times| == |Acquisitions(m, times, key, ttl)|
    requires Acquisitions(m, times, key, ttl)[i] && Acquisitions(m, times, key, ttl)[j]
    ensures times[j] > times[i] + ttl
    decreases |times|
  {
    var m' := SetNXOn(m, times[0], key, Num(0), ttl);
    AcquisitionsLength(m', times[1..], key, ttl);
    assert times[1..][j - 1] == times[j];
    if i == 0 {
      HeldUntilExpiry(m', times[1..], key, ttl, j - 1);
    } else {
      assert times[1..][i - 1] == times[i];
      LeasesAreDisjoint(m', times[1..], key, ttl, i - 1, j - 1);
    }
  }
}
