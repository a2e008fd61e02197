/** The per-client fixed-window admission controller of the serving contract
    (`_Limiter` in v2/quant_contract/contract.py): check first, then count, so
    that a denied call does not consume quota. */
module Limiter {

  /** Quota used when none is configured, in calls per client key per minute. */
  const DefaultLimit := 120

  /** Client key to (minute window, count of admitted calls in that window). */
  type Bucket = map<string, (int, int)>

  /** The answer of one admission check and the bucket map it leaves behind. */
  datatype Decision = Decision(allowed: bool, bucket: Bucket)

  /** One call of `allow`: the client key and the minute window it was made in. */
  datatype Call = Call(ip: string, now: int)

  /** The answers of a sequence of calls, in order, and the final bucket map. */
  datatype History = History(decisions: seq<bool>, bucket: Bucket)

  function Max(a: int, b: int): int { if a >= b then a else b }

  function Min(a: int, b: int): int { if a <= b then a else b }

  /** No stored count exceeds the quota (or one, since a new window always admits). */
  ghost predicate Bounded(bucket: Bucket, limit: int) {
    forall k :: k in bucket ==> bucket[k].1 <= Max(limit, 1)
  }

  /** The count a call for `ip` in window `now` is checked against:
      a key with no entry reads as (now, 0). */
  function CurrentCount(bucket: Bucket, ip: string): int {
    if ip in bucket then bucket[ip].1 else 0
  }

  /** A stored entry for `ip` belongs to an earlier (or any other) window. */
  predicate Stale(bucket: Bucket, ip: string, now: int) {
    ip in bucket && bucket[ip].0 != now
  }

  /** One admission check for `ip` in minute window `now`. */
  function Admit(bucket: Bucket, limit: int, ip: string, now: int): (d: Decision)
    // a new window admits whatever the limit, and restarts the key at one
    ensures Stale(bucket, ip, now) ==> d.allowed && d.bucket == bucket[ip := (now, 1)]
    // within the window, a call is admitted iff one more call fits in the quota
    ensures !Stale(bucket, ip, now) ==> (d.allowed <==> CurrentCount(bucket, ip) + 1 <= limit)
    ensures !Stale(bucket, ip, now) && d.allowed ==>
      d.bucket == bucket[ip := (now, CurrentCount(bucket, ip) + 1)]
    // a key seen for the first time is admitted iff the limit is at least one
    ensures ip !in bucket ==> (d.allowed <==> limit >= 1)
    // a denied call leaves the whole map as it was
    ensures !d.allowed ==> d.bucket == bucket
    // an admitted call leaves `ip` in the current window; other keys are untouched
    ensures d.allowed ==> ip in d.bucket && d.bucket[ip].0 == now
    ensures d.bucket.Keys == if d.allowed then bucket.Keys + {ip} else bucket.Keys
    ensures forall k :: k in bucket && k != ip ==> d.bucket[k] == bucket[k]
    ensures Bounded(bucket, limit) ==> Bounded(d.bucket, limit)
  {
    var entry := if ip in bucket then bucket[ip] else (now, 0);
    if entry.0 != now then Decision(true, bucket[ip := (now, 1)])
    else if entry.1 + 1 > limit then Decision(false, bucket)
    else Decision(true, bucket[ip := (now, entry.1 + 1)])
  }

  /** The calls of `calls` made one after the other, starting from `bucket`. */
  function Replay(limit: int, bucket: Bucket, calls: seq<Call>): (t: History)
    ensures |t.decisions| == |calls|
    decreases |calls|
  {
    if calls == [] then History([], bucket)
    else
      var t := Replay(limit, bucket, calls[..|calls| - 1]);
      var last := calls[|calls| - 1];
      var d := Admit(t.bucket, limit, last.ip, last.now);
      History(t.decisions + [d.allowed], d.bucket)
  }

  /** `n` copies of the same call. */
  function Repeat(c: Call, n: nat): (r: seq<Call>)
    ensures |r| == n && forall i :: 0 <= i < n ==> r[i] == c
  {
    if n == 0 then [] else Repeat(c, n - 1) + [c]
  }

  /** From an empty map, with quota L >= 1, the first L calls of one key in one
      minute are admitted and every later call in that minute is denied. The
      stored count stops at L. */
  lemma {:induction false} FirstLimitCallsAdmitted(limit: int, ip: string, now: int, n: nat)
    requires limit >= 1
    ensures var t := Replay(limit, map[], Repeat(Call(ip, now), n));
      && (forall i :: 0 <= i < n ==> t.decisions[i] == (i < limit))
      && t.bucket == if n == 0 then map[] else map[ip := (now, Min(n, limit))]
  {
    if n > 0 {
      var calls := Repeat(Call(ip, now), n);
      assert calls[..n - 1] == Repeat(Call(ip, now), n - 1);
      FirstLimitCallsAdmitted(limit, ip, now, n - 1);
      var before := Replay(limit, map[], calls[..n - 1]);
      var d := Admit(before.bucket, limit, ip, now);
      assert d.allowed == (n - 1 < limit) && d.bucket == map[ip := (now, Min(n, limit))] by {
        if n == 1 {
          assert before.bucket == map[];
        } else {
          assert before.bucket == map[ip := (now, Min(n - 1, limit))];
        }
      }
      var t := Replay(limit, map[], calls);
      assert t.decisions == before.decisions + [d.allowed] && t.bucket == d.bucket;
      forall i | 0 <= i < n
        ensures t.decisions[i] == (i < limit)
      {
        if i < n - 1 {
          assert t.decisions[i] == before.decisions[i];
        }
      }
    }
  }

  /** Denied calls are inert: however many denied calls a key makes, the bucket
      map is exactly what it was, so its behaviour once the window rolls over
      is unaffected. */
  lemma {:induction false} DeniedCallsChangeNothing(limit: int, bucket: Bucket, ip: string, now: int, n: nat)
    requires !Stale(bucket, ip, now) && CurrentCount(bucket, ip) + 1 > limit
    ensures var t := Replay(limit, bucket, Repeat(Call(ip, now), n));
      && t.bucket == bucket
      && forall i :: 0 <= i < n ==> !t.decisions[i]
  {
    if n > 0 {
      var calls := Repeat(Call(ip, now), n);
      assert calls[..n - 1] == Repeat(Call(ip, now), n - 1);
      DeniedCallsChangeNothing(limit, bucket, ip, now, n - 1);
    }
  }

  /** Starting from an empty map, every stored count stays within max(limit, 1)
      after any sequence of calls. */
  lemma {:induction false} ReplayStaysBounded(limit: int, calls: seq<Call>)
    ensures Bounded(Replay(limit, map[], calls).bucket, limit)
  {
    if calls != [] {
      ReplayStaysBounded(limit, calls[..|calls| - 1]);
    }
  }

  class RateLimiter {
    const limit: int
    var bucket: Bucket

    ghost predicate Valid()
      reads this
    {
      Bounded(bucket, limit)
    }

    constructor (limit: int := DefaultLimit)
      ensures this.limit == limit && bucket == map[] && Valid()
    {
      this.limit := limit;
      bucket := map[];
    }

    /** `allow(ip)` with the clock reading `now == time.time() // 60` passed in. */
    method Allow(ip: string, now: int) returns (ok: bool)
      requires Valid()
      modifies this
      ensures Valid()
      ensures ok == Admit(old(bucket), limit, ip, now).allowed
      ensures bucket == Admit(old(bucket), limit, ip, now).bucket
    {
      var win, cnt := now, 0;
      if ip in bucket {
        win, cnt := bucket[ip].0, bucket[ip].1;
      }
      if win != now {
        bucket := bucket[ip := (now, 1)];
        return true;
      }
      if cnt + 1 > limit {
        return false;
      }
      bucket := bucket[ip := (now, cnt + 1)];
      return true;
    }
  }
}
