/**
 * `DomainRateLimiter` of TP2/server_scraping.py: a sliding one-minute window
 * of request times per domain. The clock reading is passed in.
 */
module RateLimit {
  import opened Tasks

  /** `self._period`, in seconds. */
  const Period: real := 60.0

  predicate Sorted(b: seq<Time>) {
    forall i, j | 0 <= i < j < |b| :: b[i] <= b[j]
  }

  /** No request time in the bucket lies after `now`. */
  predicate NotAfter(b: seq<Time>, now: Time) {
    forall i | 0 <= i < |b| :: b[i] <= now
  }

  /**
   * The bucket after the `popleft` loop: the front is dropped while it is
   * more than a period older than `now`. What is dropped is a prefix of
   * stale times; what is kept starts with a time inside the window.
   */
  function DropOld(b: seq<Time>, now: Time): (r: seq<Time>)
    ensures |r| <= |b|
    ensures r != [] ==> now - r[0] <= Period
    decreases |b|
  {
    if b != [] && now - b[0] > Period then DropOld(b[1..], now) else b
  }

  /** Eviction removes exactly a prefix of times more than a period old. */
  lemma {:induction false} DropOldSuffix(b: seq<Time>, now: Time)
    ensures var r := DropOld(b, now);
      && r == b[|b| - |r|..]
      && forall i | 0 <= i < |b| - |r| :: now - b[i] > Period
    decreases |b|
  {
    if b != [] && now - b[0] > Period {
      DropOldSuffix(b[1..], now);
      var r := DropOld(b, now);
      assert b[1..][|b| - 1 - |r|..] == b[|b| - |r|..];
      assert forall i | 1 <= i < |b| - |r| :: b[i] == b[1..][i - 1];
    }
  }

  /** What `allow` decides for a domain whose bucket is `b`, and the bucket it leaves. */
  datatype Decision = Decision(allowed: bool, bucket: seq<Time>)

  /**
   * `allow` with a positive maximum: after eviction, refuse without recording
   * when the bucket already holds `max` times, otherwise record `now`.
   */
  function Admit(b: seq<Time>, now: Time, max: int): (r: Decision)
    requires max > 0
    ensures r.allowed <==> |DropOld(b, now)| < max
    ensures r.allowed ==> r.bucket == DropOld(b, now) + [now]
    ensures !r.allowed ==> r.bucket == DropOld(b, now)
  {
    var kept := DropOld(b, now);
    if |kept| >= max then Decision(false, kept) else Decision(true, kept + [now])
  }

  /**
   * A bucket already holding `max` times, the oldest still inside the window,
   * refuses the next request and is left as it was.
   */
  lemma FullWindowRefuses(b: seq<Time>, now: Time, max: int)
    requires max > 0 && |b| >= max && now - b[0] <= Period
    ensures !Admit(b, now, max).allowed && Admit(b, now, max).bucket == b
  {
  }

  /** With `max == 1`, a second request within one period of an admitted one is refused. */
  lemma SecondWithinPeriodRefused(b: seq<Time>, first: Time, second: Time)
    requires Admit(b, first, 1).allowed && second - first <= Period
    ensures Admit(b, first, 1).bucket == [first]
    ensures !Admit(Admit(b, first, 1).bucket, second, 1).allowed
  {
  }

  /** A bucket that held at most `max` times still does after `allow`; an allowed one never exceeds it. */
  lemma AdmitBounded(b: seq<Time>, now: Time, max: int)
    requires max > 0
    ensures Admit(b, now, max).allowed ==> |Admit(b, now, max).bucket| <= max
    ensures |b| <= max ==> |Admit(b, now, max).bucket| <= max
  {
  }

  /**
   * When requests arrive in time order, `allow` keeps the bucket in time
   * order and every time it keeps lies within one period of `now`.
   */
  lemma AdmitInOrder(b: seq<Time>, now: Time, max: int)
    requires max > 0
    requires Sorted(b) && NotAfter(b, now)
    ensures var r := Admit(b, now, max).bucket;
      && Sorted(r) && NotAfter(r, now)
      && forall i | 0 <= i < |r| :: now - r[i] <= Period
  {
    var kept := DropOld(b, now);
    var r := Admit(b, now, max).bucket;
    DropOldSuffix(b, now);
    assert forall i | 0 <= i < |kept| :: kept[i] == b[|b| - |kept| + i];
    assert Sorted(kept);
    if kept != [] {
      assert forall i | 0 <= i < |kept| :: kept[0] <= kept[i];
    }
    assert forall i | 0 <= i < |kept| :: now - kept[i] <= Period;
    assert forall i | 0 <= i < |r| :: r[i] == if i < |kept| then kept[i] else now;
  }

  class DomainRateLimiter {
    /** `self._max`: requests allowed per domain and period; `<= 0` disables the limit. */
    const max: int
    /** `self._calls`: the request times kept per domain, oldest first. */
    var calls: map<string, seq<Time>>

    /** Every bucket holds at most `max` times. */
    predicate Valid()
      reads this
    {
      forall d | d in calls :: |calls[d]| <= max
    }

    constructor (max: int)
      ensures this.max == max && calls == map[]
      ensures Valid()
    {
      this.max := max;
      calls := map[];
    }

    /** `allow(domain)` at time `now`. */
    method Allow(domain: string, now: Time) returns (allowed: bool)
      modifies this
      ensures max <= 0 ==> allowed && calls == old(calls)
      ensures max > 0 ==>
                var d := Admit(if domain in old(calls) then old(calls)[domain] else [], now, max);
                && allowed == d.allowed
                && calls == old(calls)[domain := d.bucket]
      ensures old(Valid()) ==> Valid()
    {
      if max <= 0 {
        return true;
      }
      var bucket := if domain in calls then calls[domain] else [];
      ghost var start := bucket;
      assert start == if domain in old(calls) then old(calls)[domain] else [];
      calls := calls[domain := bucket];
      while bucket != [] && now - bucket[0] > Period
        invariant DropOld(bucket, now) == DropOld(start, now)
        invariant calls == old(calls)[domain := bucket]
        invariant |bucket| <= |start|
        decreases |bucket|
      {
        bucket := bucket[1..];
        calls := calls[domain := bucket];
      }
      ghost var d := Admit(start, now, max);
      assert bucket == DropOld(start, now);
      if |bucket| >= max {
        allowed := false;
      } else {
        bucket := bucket + [now];
        calls := calls[domain := bucket];
        allowed := true;
      }
      assert allowed == d.allowed && bucket == d.bucket;
      assert calls == old(calls)[domain := bucket];
      if old(Valid()) {
        AdmitBounded(start, now, max);
        assert forall k | k in calls :: k == domain || calls[k] == old(calls)[k];
      }
    }
  }
}
