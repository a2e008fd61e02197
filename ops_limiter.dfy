/** The admission controller of the ops middleware (`_Limiter` in
    ops_instrumentation.py): count first, then compare. Every call, admitted or
    not, is added to the key's count. */
module OpsLimiter {
  import L = Limiter

  /** The count the key already has in window `now`: zero when the key is
      missing or its stored window is another one. */
  function SameWindowCount(bucket: L.Bucket, ip: string, now: int): int {
    if ip in bucket && bucket[ip].0 == now then bucket[ip].1 else 0
  }

  /** Every stored count is at least one. */
  ghost predicate Positive(bucket: L.Bucket) {
    forall k :: k in bucket ==> bucket[k].1 >= 1
  }

  /** One admission check for `ip` in minute window `now`. */
  function Admit(bucket: L.Bucket, limit: int, ip: string, now: int): (d: L.Decision)
    // the call is always recorded, denied or not: the key moves to window `now`
    // with its same-window count plus one (one after a missing or stale entry)
    ensures ip in d.bucket && d.bucket[ip] == (now, SameWindowCount(bucket, ip, now) + 1)
    // admitted iff the newly stored count is within the quota
    ensures d.allowed <==> d.bucket[ip].1 <= limit
    ensures d.bucket.Keys == bucket.Keys + {ip}
    ensures forall k :: k in bucket && k != ip ==> d.bucket[k] == bucket[k]
    ensures Positive(bucket) ==> Positive(d.bucket)
  {
    var entry := if ip in bucket then bucket[ip] else (now, 0);
    var current := if entry.0 != now then (now, 0) else entry;
    var cnt := current.1 + 1;
    L.Decision(cnt <= limit, bucket[ip := (current.0, cnt)])
  }

  /** The calls of `calls` made one after the other, starting from `bucket`. */
  function Replay(limit: int, bucket: L.Bucket, calls: seq<L.Call>): (t: L.History)
    ensures |t.decisions| == |calls|
    decreases |calls|
  {
    if calls == [] then L.History([], bucket)
    else
      var t := Replay(limit, bucket, calls[..|calls| - 1]);
      var last := calls[|calls| - 1];
      var d := Admit(t.bucket, limit, last.ip, last.now);
      L.History(t.decisions + [d.allowed], d.bucket)
  }

  /** The windows of the calls made for `ip`, in order. */
  function WindowsOf(calls: seq<L.Call>, ip: string): (ws: seq<int>)
    ensures |ws| <= |calls|
  {
    if calls == [] then []
    else
      var rest := WindowsOf(calls[..|calls| - 1], ip);
      var last := calls[|calls| - 1];
      if last.ip == ip then rest + [last.now] else rest
  }

  /** How many calls the last window has seen without interruption: the length
      of the longest suffix of `ws` whose elements all equal its last one. */
  function TrailingRun(ws: seq<int>): nat
  {
    if ws == [] then 0
    else if |ws| >= 2 && ws[|ws| - 2] == ws[|ws| - 1] then TrailingRun(ws[..|ws| - 1]) + 1
    else 1
  }

  /** From an empty map, a key is stored iff it has been called, and then with
      the window of its last call and the number of calls made since its window
      last changed: the count is not capped by the limit. */
  lemma {:induction false} StoredCountIsCallsInWindow(limit: int, calls: seq<L.Call>, ip: string)
    ensures var b := Replay(limit, map[], calls).bucket;
      var ws := WindowsOf(calls, ip);
      && (ip in b <==> ws != [])
      && (ip in b ==> b[ip] == (ws[|ws| - 1], TrailingRun(ws)))
  {
    if calls != [] {
      var prefix := calls[..|calls| - 1];
      StoredCountIsCallsInWindow(limit, prefix, ip);
      var before := Replay(limit, map[], prefix).bucket;
      var ws := WindowsOf(prefix, ip);
      var last := calls[|calls| - 1];
      if last.ip == ip {
        var ws' := ws + [last.now];
        assert ws'[..|ws'| - 1] == ws;
        assert WindowsOf(calls, ip) == ws';
        if ws != [] && ws[|ws| - 1] == last.now {
          assert TrailingRun(ws') == TrailingRun(ws) + 1;
        } else {
          assert TrailingRun(ws') == 1;
        }
      }
    }
  }

  class CountingLimiter {
    const limit: int
    var bucket: L.Bucket

    ghost predicate Valid()
      reads this
    {
      Positive(bucket)
    }

    constructor (limit: int := L.DefaultLimit)
      ensures this.limit == limit && bucket == map[] && Valid()
    {
      this.limit := limit;
      bucket := map[];
    }

    /** `allow(ip)` with the clock reading `now == time.time() // 60` passed in. */
    method Allow(ip: string, now: int) returns (ok: bool)
      requires Valid()
      modifies this
      ensures Valid()
      ensures ok == Admit(old(bucket), limit, ip, now).allowed
      ensures bucket == Admit(old(bucket), limit, ip, now).bucket
    {
      var win, cnt := now, 0;
      if ip in bucket {
        win, cnt := bucket[ip].0, bucket[ip].1;
      }
      if win != now {
        win, cnt := now, 0;
      }
      cnt := cnt + 1;
      bucket := bucket[ip := (win, cnt)];
      ok := cnt <= limit;
    }
  }
}
