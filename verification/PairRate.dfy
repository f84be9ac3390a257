/**
 * The token-bucket limiter for `pair.*` calls (crates/sessiontap-hub/src/service.rs:108-161), with
 * a bounded table whose full buckets are pruned. Seconds and tokens are real numbers.
 */
module PairRate {
  import opened Common

  const PAIR_RATE_MAX_ENTRIES: nat := 1024

  /** A peer address, grouped for limiting. */
  type Address = nat

  datatype Bucket = Bucket(tokens: real, updated: real)

  datatype Limits = Limits(burst: real, perSecond: real)

  predicate Sane(l: Limits) {
    l.burst >= 0.0 && l.perSecond > 0.0
  }

  function Min(a: real, b: real): real {
    if a <= b then a else b
  }

  function Refilled(l: Limits, b: Bucket, now: real): real {
    var elapsed := if now > b.updated then now - b.updated else 0.0;
    Min(b.tokens + elapsed * l.perSecond, l.burst)
  }

  type Table = map<Address, Bucket>

  function Prune(l: Limits, table: Table, now: real): Table {
    map key | key in table && Refilled(l, table[key], now) < l.burst :: table[key]
  }

  /** The table an address is looked up in: pruned first when it is full and the address is new. */
  function MakeRoom(l: Limits, table: Table, key: Address, now: real): Table {
    if key !in table && |table| >= PAIR_RATE_MAX_ENTRIES then Prune(l, table, now) else table
  }

  /** Even after pruning there is no place for a new address. */
  predicate TableFull(l: Limits, table: Table, key: Address, now: real) {
    key !in table && |MakeRoom(l, table, key, now)| >= PAIR_RATE_MAX_ENTRIES
  }

  function TakeToken(l: Limits, table: Table, key: Address, now: real): (Table, bool) {
    var bucket := if key in table then table[key] else Bucket(l.burst, now);
    var tokens := Refilled(l, bucket, now);
    if tokens >= 1.0 then (table[key := Bucket(tokens - 1.0, now)], true)
    else (table[key := Bucket(tokens, now)], false)
  }

  function Allow(l: Limits, table: Table, key: Address, now: real): (Table, bool) {
    var room := MakeRoom(l, table, key, now);
    if TableFull(l, table, key, now) then (room, false) else TakeToken(l, room, key, now)
  }

  class PairRateLimiter {
    const limits: Limits
    var buckets: Table

    constructor (limits: Limits)
      ensures this.limits == limits && buckets == map[]
    {
      this.limits := limits;
      buckets := map[];
    }

    method AllowCall(key: Address, now: real) returns (ok: bool)
      modifies this`buckets
      ensures (buckets, ok) == Allow(limits, old(buckets), key, now)
    {
      if key !in buckets && |buckets| >= PAIR_RATE_MAX_ENTRIES {
        buckets := map k | k in buckets && Refilled(limits, buckets[k], now) < limits.burst :: buckets[k];
        if |buckets| >= PAIR_RATE_MAX_ENTRIES {
          return false;
        }
      }
      ghost var room := buckets;
      assert room == MakeRoom(limits, old(buckets), key, now);
      if key !in buckets {
        buckets := buckets[key := Bucket(limits.burst, now)];
      }
      var tokens := Refilled(limits, buckets[key], now);
      ok := tokens >= 1.0;
      buckets := buckets[key := Bucket(if ok then tokens - 1.0 else tokens, now)];
      assert buckets == room[key := Bucket(if ok then tokens - 1.0 else tokens, now)];
    }
  }

  // ---- Runs ----

  datatype Call = Call(key: Address, now: real)

  function After(l: Limits, table: Table, calls: seq<Call>): Table {
    if calls == [] then table
    else
      var n := |calls| - 1;
      Allow(l, After(l, table, calls[..n]), calls[n].key, calls[n].now).0
  }

  function Decision(l: Limits, table: Table, calls: seq<Call>, i: nat): bool
    requires i < |calls|
  {
    Allow(l, After(l, table, calls[..i]), calls[i].key, calls[i].now).1
  }

  /** Calls of `key` that were allowed. */
  function Allowed(l: Limits, table: Table, calls: seq<Call>, key: Address): nat {
    if calls == [] then 0
    else
      var n := |calls| - 1;
      Allowed(l, table, calls[..n], key)
      + (if calls[n].key == key && Decision(l, table, calls, n) then 1 else 0)
  }

  /** Times never go back, starting at `from` and ending by `to`. */
  predicate Between(calls: seq<Call>, from: real, to: real) {
    if calls == [] then from <= to
    else
      var n := |calls| - 1;
      calls[n].now <= to && Between(calls[..n], from, calls[n].now)
  }

  /** Buckets hold between zero and `burst` tokens and were last used by `now`. */
  predicate Settled(l: Limits, table: Table, now: real) {
    && |table| <= PAIR_RATE_MAX_ENTRIES
    && forall key :: key in table ==> 0.0 <= table[key].tokens <= l.burst && table[key].updated <= now
  }

  /** Tokens an address could draw on; an address without a bucket has a full one. */
  function Level(l: Limits, table: Table, key: Address, now: real): real {
    if key in table then Refilled(l, table[key], now) else l.burst
  }

  lemma ProductNonNegative(a: real, b: real)
    requires a >= 0.0 && b >= 0.0
    ensures a * b >= 0.0
  {
  }

  lemma RefilledBounds(l: Limits, b: Bucket, now: real)
    requires Sane(l) && 0.0 <= b.tokens <= l.burst
    ensures 0.0 <= Refilled(l, b, now) <= l.burst
  {
    var elapsed := if now > b.updated then now - b.updated else 0.0;
    ProductNonNegative(elapsed, l.perSecond);
  }

  lemma RefilledGrows(l: Limits, b: Bucket, now: real, later: real)
    requires Sane(l) && b.updated <= now <= later && 0.0 <= b.tokens <= l.burst
    ensures Refilled(l, b, now) <= Refilled(l, b, later) <= Refilled(l, b, now) + (later - now) * l.perSecond
  {
    assert (later - b.updated) * l.perSecond == (now - b.updated) * l.perSecond + (later - now) * l.perSecond;
    ProductNonNegative(later - now, l.perSecond);
    ProductNonNegative(now - b.updated, l.perSecond);
  }

  lemma PruneKeepsLevels(l: Limits, table: Table, now: real, key: Address)
    requires Sane(l) && Settled(l, table, now)
    ensures Settled(l, Prune(l, table, now), now)
    ensures Level(l, Prune(l, table, now), key, now) == Level(l, table, key, now)
  {
    var kept := Prune(l, table, now);
    assert kept.Keys <= table.Keys;
    SubsetCount(kept.Keys, table.Keys);
    if key in table { RefilledBounds(l, table[key], now); }
  }

  lemma UpdateCount(table: Table, key: Address, b: Bucket)
    ensures |table[key := b]| == if key in table then |table| else |table| + 1
  {
    assert table[key := b].Keys == table.Keys + {key};
  }

  /** A call spends exactly its own token: every other level is untouched, and the table stays small. */
  lemma CallSpendsItsToken(l: Limits, table: Table, call: Call, key: Address)
    requires Sane(l) && Settled(l, table, call.now)
    ensures var (table', ok) := Allow(l, table, call.key, call.now);
            && Settled(l, table', call.now)
            && Level(l, table', key, call.now)
               == Level(l, table, key, call.now) - (if key == call.key && ok then 1.0 else 0.0)
  {
    PruneKeepsLevels(l, table, call.now, key);
    PruneKeepsLevels(l, table, call.now, call.key);
    var room := MakeRoom(l, table, call.key, call.now);
    if !TableFull(l, table, call.key, call.now) {
      var bucket := if call.key in room then room[call.key] else Bucket(l.burst, call.now);
      RefilledBounds(l, bucket, call.now);
      var tokens := Refilled(l, bucket, call.now);
      UpdateCount(room, call.key, Bucket(if tokens >= 1.0 then tokens - 1.0 else tokens, call.now));
      assert bucket.tokens + 0.0 * l.perSecond == bucket.tokens;
    }
  }

  lemma LevelGrows(l: Limits, table: Table, key: Address, now: real, later: real)
    requires Sane(l) && Settled(l, table, now) && now <= later
    ensures Settled(l, table, later)
    ensures Level(l, table, key, now) <= Level(l, table, key, later) <= Level(l, table, key, now) + (later - now) * l.perSecond
    ensures 0.0 <= Level(l, table, key, later) <= l.burst
  {
    ProductNonNegative(later - now, l.perSecond);
    if key in table {
      RefilledGrows(l, table[key], now, later);
      RefilledBounds(l, table[key], later);
    }
  }

  /** Tokens spent plus tokens left never exceed tokens at hand plus tokens regained. */
  lemma {:induction false} TokensAreConserved(l: Limits, table: Table, calls: seq<Call>, key: Address, from: real, to: real)
    requires Sane(l) && Settled(l, table, from) && Between(calls, from, to)
    ensures from <= to && Settled(l, After(l, table, calls), to)
    ensures Allowed(l, table, calls, key) as real + Level(l, After(l, table, calls), key, to)
            <= Level(l, table, key, from) + (to - from) * l.perSecond
    decreases |calls|
  {
    if calls == [] {
      LevelGrows(l, table, key, from, to);
    } else {
      var n := |calls| - 1;
      var now := calls[n].now;
      TokensAreConserved(l, table, calls[..n], key, from, now);
      var before, end := After(l, table, calls[..n]), After(l, table, calls);
      CallSpendsItsToken(l, before, calls[n], key);
      LevelGrows(l, end, key, now, to);
      assert (now - from) * l.perSecond + (to - now) * l.perSecond == (to - from) * l.perSecond;
    }
  }

  /**
   * In any interval of any run, an address is allowed at most `burst` calls plus one per refill
   * period elapsed, whatever the other addresses do and however often the table is pruned; and the
   * table never holds more than 1024 entries.
   */
  lemma NoMoreThanBurstPlusRefill(l: Limits, before: seq<Call>, calls: seq<Call>, key: Address, start: real, from: real, to: real)
    requires Sane(l) && Between(before, start, from) && Between(calls, from, to)
    ensures var table := After(l, map[], before);
            && Allowed(l, table, calls, key) as real <= l.burst + (to - from) * l.perSecond
            && |After(l, table, calls)| <= 1024
  {
    TokensAreConserved(l, map[], before, key, start, from);
    var table := After(l, map[], before);
    TokensAreConserved(l, table, calls, key, from, to);
    LevelGrows(l, table, key, from, from);
    LevelGrows(l, After(l, table, calls), key, to, to);
  }

  // ---- Pruning is invisible ----

  /** The limiter with no table limit, fed only the calls the real one did not refuse as full. */
  function Unbounded(l: Limits, calls: seq<Call>): Table {
    if calls == [] then map[]
    else
      var n := |calls| - 1;
      if TableFull(l, After(l, map[], calls[..n]), calls[n].key, calls[n].now) then Unbounded(l, calls[..n])
      else TakeToken(l, Unbounded(l, calls[..n]), calls[n].key, calls[n].now).0
  }

  /** `table` is `full` without some addresses whose buckets are full again. */
  ghost predicate PrunedFrom(l: Limits, table: Table, full: Table, now: real) {
    && (forall key :: key in table ==> key in full && full[key] == table[key])
    && (forall key :: key in full && key !in table ==> Refilled(l, full[key], now) == l.burst)
    && (forall key :: key in full ==> 0.0 <= full[key].tokens <= l.burst && full[key].updated <= now)
  }

  lemma PrunedStays(l: Limits, table: Table, full: Table, now: real, later: real)
    requires Sane(l) && PrunedFrom(l, table, full, now) && now <= later
    ensures PrunedFrom(l, table, full, later)
  {
    forall key | key in full && key !in table ensures Refilled(l, full[key], later) == l.burst {
      RefilledGrows(l, full[key], now, later);
      RefilledBounds(l, full[key], later);
    }
  }

  lemma CallKeepsPruned(l: Limits, table: Table, full: Table, call: Call)
    requires Sane(l) && PrunedFrom(l, table, full, call.now)
    ensures var (table', ok) := Allow(l, table, call.key, call.now);
            if TableFull(l, table, call.key, call.now) then PrunedFrom(l, table', full, call.now)
            else ok == TakeToken(l, full, call.key, call.now).1
                 && PrunedFrom(l, table', TakeToken(l, full, call.key, call.now).0, call.now)
  {
    var room := MakeRoom(l, table, call.key, call.now);
    forall key | key in full && key !in room ensures Refilled(l, full[key], call.now) == l.burst {
      RefilledBounds(l, full[key], call.now);
    }
    assert PrunedFrom(l, room, full, call.now);
    var untouched := Bucket(l.burst, call.now);
    RefilledBounds(l, untouched, call.now);
    assert untouched.tokens + 0.0 * l.perSecond == l.burst;
    var bucket := if call.key in full then full[call.key] else untouched;
    RefilledBounds(l, bucket, call.now);
  }

  lemma {:induction false} TableIsPrunedFrom(l: Limits, calls: seq<Call>, from: real, to: real)
    requires Sane(l) && Between(calls, from, to)
    ensures PrunedFrom(l, After(l, map[], calls), Unbounded(l, calls), to)
    decreases |calls|
  {
    if calls != [] {
      var n := |calls| - 1;
      TableIsPrunedFrom(l, calls[..n], from, calls[n].now);
      CallKeepsPruned(l, After(l, map[], calls[..n]), Unbounded(l, calls[..n]), calls[n]);
      PrunedStays(l, After(l, map[], calls), Unbounded(l, calls), calls[n].now, to);
    }
  }

  lemma {:induction false} BetweenPrefix(calls: seq<Call>, i: nat, from: real, to: real)
    requires Between(calls, from, to) && i < |calls|
    ensures Between(calls[..i], from, calls[i].now)
    decreases |calls|
  {
    var n := |calls| - 1;
    if i < n {
      BetweenPrefix(calls[..n], i, from, calls[n].now);
      assert calls[..n][..i] == calls[..i];
    }
  }

  /**
   * Every decision except the full-table refusals is the one an unbounded, never-pruned limiter
   * makes when it sees the same calls without those refusals.
   */
  lemma PruningChangesNoDecision(l: Limits, calls: seq<Call>, i: nat, from: real, to: real)
    requires Sane(l) && Between(calls, from, to) && i < |calls|
    ensures if TableFull(l, After(l, map[], calls[..i]), calls[i].key, calls[i].now) then !Decision(l, map[], calls, i)
            else Decision(l, map[], calls, i) == TakeToken(l, Unbounded(l, calls[..i]), calls[i].key, calls[i].now).1
  {
    BetweenPrefix(calls, i, from, to);
    TableIsPrunedFrom(l, calls[..i], from, calls[i].now);
    CallKeepsPruned(l, After(l, map[], calls[..i]), Unbounded(l, calls[..i]), calls[i]);
  }

  /** Tokens come back at the given rate, up to the burst and no further. */
  lemma RefillIs(l: Limits, table: Table, key: Address, now: real, later: real)
    requires Sane(l) && Settled(l, table, now) && now <= later
    ensures var regained := Level(l, table, key, now) + (later - now) * l.perSecond;
            Level(l, table, key, later) == if regained <= l.burst then regained else l.burst
  {
    ProductNonNegative(later - now, l.perSecond);
    if key in table {
      var b := table[key];
      assert (now - b.updated) * l.perSecond + (later - now) * l.perSecond == (later - b.updated) * l.perSecond;
    }
  }

  /** The addresses that would be kept by pruning: those not full again. */
  function Spent(l: Limits, table: Table, now: real): set<Address> {
    set key | key in table && Level(l, table, key, now) < l.burst
  }

  /**
   * A call is allowed if and only if its address has a token, and, when the address is new to a
   * table of 1024, fewer than 1024 addresses are short of their burst.
   */
  lemma AllowedIff(l: Limits, table: Table, key: Address, now: real)
    requires Sane(l) && Settled(l, table, now)
    ensures Allow(l, table, key, now).1 <==>
            && Level(l, table, key, now) >= 1.0
            && (key in table || |table| < 1024 || |Spent(l, table, now)| < 1024)
  {
    var kept := Prune(l, table, now);
    assert kept.Keys == Spent(l, table, now);
    assert |kept| == |kept.Keys|;
    if key !in table {
      RefilledBounds(l, Bucket(l.burst, now), now);
      assert l.burst + 0.0 * l.perSecond == l.burst;
    }
  }

  /** An address that has not called before gets its whole burst, one call after another. */
  lemma NewAddressIsAllowed(l: Limits, table: Table, key: Address, now: real)
    requires Sane(l) && Settled(l, table, now) && l.burst >= 1.0 && key !in table && |table| < 1024
    ensures Allow(l, table, key, now).1 && Level(l, Allow(l, table, key, now).0, key, now) == l.burst - 1.0
  {
    AllowedIff(l, table, key, now);
    CallSpendsItsToken(l, table, Call(key, now), key);
  }
}
