/** How the two admission controllers relate: with a quota of at least one they
    give the same answers to every sequence of calls, and differ only in what
    they store; with a quota of zero they disagree on a key whose window has
    rolled over. */
module LimiterVariants {
  import L = Limiter
  import O = OpsLimiter

  /** The two maps hold the same keys in the same windows, and the quota-
      preserving count is the raw count capped at the limit. */
  ghost predicate Corresponds(checked: L.Bucket, counted: L.Bucket, limit: int) {
    && checked.Keys == counted.Keys
    && forall k :: k in checked ==>
         checked[k].0 == counted[k].0 && checked[k].1 == L.Min(counted[k].1, limit)
  }

  /** One call keeps the correspondence and gets the same answer from both. */
  lemma StepAgrees(checked: L.Bucket, counted: L.Bucket, limit: int, ip: string, now: int)
    requires limit >= 1 && Corresponds(checked, counted, limit)
    ensures var c := L.Admit(checked, limit, ip, now);
      var o := O.Admit(counted, limit, ip, now);
      c.allowed == o.allowed && Corresponds(c.bucket, o.bucket, limit)
  {
    var c := L.Admit(checked, limit, ip, now);
    var o := O.Admit(counted, limit, ip, now);
    if ip in checked && checked[ip].0 == now {
      assert c.allowed == (counted[ip].1 + 1 <= limit);
      if !c.allowed {
        assert checked[ip].1 == L.Min(o.bucket[ip].1, limit);
      }
    }
    assert c.bucket.Keys == o.bucket.Keys;
  }

  /** For a quota of at least one, any sequence of calls from corresponding
      states gets identical answers, and the final states still correspond. */
  lemma {:induction false} VariantsAgree(checked: L.Bucket, counted: L.Bucket, limit: int, calls: seq<L.Call>)
    requires limit >= 1 && Corresponds(checked, counted, limit)
    ensures var c := L.Replay(limit, checked, calls);
      var o := O.Replay(limit, counted, calls);
      c.decisions == o.decisions && Corresponds(c.bucket, o.bucket, limit)
  {
    if calls != [] {
      var prefix := calls[..|calls| - 1];
      VariantsAgree(checked, counted, limit, prefix);
      var last := calls[|calls| - 1];
      StepAgrees(L.Replay(limit, checked, prefix).bucket, O.Replay(limit, counted, prefix).bucket,
                 limit, last.ip, last.now);
    }
  }

  /** Both controllers started empty agree on every sequence of calls when the
      quota is at least one. */
  lemma FreshVariantsAgree(limit: int, calls: seq<L.Call>)
    requires limit >= 1
    ensures L.Replay(limit, map[], calls).decisions == O.Replay(limit, map[], calls).decisions
  {
    VariantsAgree(map[], map[], limit, calls);
  }

  /** With a quota of zero, a key whose stored window is another one is
      admitted by the quota-preserving controller and denied by the other,
      whatever the two maps hold for it. */
  lemma ZeroLimitDisagrees(checked: L.Bucket, counted: L.Bucket, ip: string, now: int)
    requires L.Stale(checked, ip, now) && L.Stale(counted, ip, now)
    ensures L.Admit(checked, 0, ip, now).allowed
    ensures !O.Admit(counted, 0, ip, now).allowed
  {
  }
}
