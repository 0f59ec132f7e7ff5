/** The per-tenant sliding-window rate limit checked before every knowledge
    retrieval. The shared sorted set keyed `rate_limit_<tenant>` stores each
    request's millisecond timestamp as both member and score, so a set of
    timestamps is its whole content. */
module RateLimit {

  /** Length of the sliding window, in milliseconds. */
  const WindowMillis: int := 60000

  /** The tenant's knowledge rate-limit policy, as the feature service reports it. */
  datatype RateLimitPolicy = RateLimitPolicy(enabled: bool, limit: int, subscriptionPlan: string)

  /** The audit row written when a request is rejected. */
  datatype RateLimitLog = RateLimitLog(tenantId: string, subscriptionPlan: string, operation: string)

  /** The key of a tenant's sorted set. */
  function Key(tenant: string): string {
    "rate_limit_" + tenant
  }

  /** ZADD key {now: now}: a second request in the same millisecond adds no member. */
  function Insert(w: set<nat>, now: nat): set<nat> {
    w + {now}
  }

  /** ZREMRANGEBYSCORE key 0 (now - 60000): drops every score in that closed range. */
  function Prune(w: set<nat>, now: nat): set<nat> {
    set t | t in w && !(0 <= t <= now - WindowMillis)
  }

  /** The window after one request at `now`: insert, then prune. */
  function Slide(w: set<nat>, now: nat): set<nat> {
    Prune(Insert(w, now), now)
  }

  /** The request is admitted unless ZCARD of the slid window exceeds the limit. */
  predicate Admits(w: set<nat>, now: nat, limit: int) {
    !(|Slide(w, now)| > limit)
  }

  /** The window after a run of requests at the given times, in order. */
  function Replay(w: set<nat>, times: seq<nat>): set<nat>
    decreases |times|
  {
    if times == [] then w else Slide(Replay(w, times[..|times| - 1]), times[|times| - 1])
  }

  predicate StrictlyIncreasing(times: seq<nat>) {
    forall i, j :: 0 <= i < j < |times| ==> times[i] < times[j]
  }

  /** The request's own timestamp is always in the window it is counted against. */
  lemma SlideHoldsNow(w: set<nat>, now: nat)
    ensures now in Slide(w, now) && |Slide(w, now)| >= 1
  {
    assert now in Insert(w, now);
    assert now in Slide(w, now);
  }

  /** So a limit below one rejects every request. */
  lemma LimitBelowOneRejects(w: set<nat>, now: nat, limit: int)
    requires limit < 1
    ensures !Admits(w, now, limit)
  {
    SlideHoldsNow(w, now);
  }

  /** Every surviving entry lies inside the window, and every entry of the old
      window inside it survives. */
  lemma SlideKeepsRecent(w: set<nat>, now: nat, t: nat)
    ensures t in Slide(w, now) ==> now - WindowMillis < t
    ensures t in w && now - WindowMillis < t ==> t in Slide(w, now)
  {
  }

  /** Two requests in the same millisecond occupy one entry. */
  lemma SameMillisecondSharesEntry(w: set<nat>, now: nat)
    ensures Slide(Slide(w, now), now) == Slide(w, now)
    ensures |Slide(Slide(w, now), now)| == |Slide(w, now)|
  {
    SlideHoldsNow(w, now);
    assert Insert(Slide(w, now), now) == Slide(w, now);
  }

  /** A burst of requests at distinct times spanning less than the window, made
      when every earlier entry has already aged out, leaves exactly the burst's
      timestamps in the window. */
  lemma {:induction false} BurstWindow(w: set<nat>, times: seq<nat>)
    requires |times| > 0 && StrictlyIncreasing(times)
    requires times[|times| - 1] - times[0] < WindowMillis
    requires forall t :: t in w ==> t <= times[0] - WindowMillis
    ensures forall t :: t in Replay(w, times) <==> t in times
    ensures |Replay(w, times)| == |times|
    decreases |times|
  {
    var n := |times|;
    var init := times[..n - 1];
    var now := times[n - 1];
    assert times == init + [now];
    if n == 1 {
      assert Replay(w, init) == w;
      SlideAfterQuiet(w, now);
    } else {
      BurstPrefix(times);
      BurstWindow(w, init);
      var before := Replay(w, init);
      BurstEntriesRecent(times, before);
      SlideAddsNewest(before, now);
    }
  }

  /** The first request after a quiet minute finds an empty window. */
  lemma SlideAfterQuiet(w: set<nat>, now: nat)
    requires forall t :: t in w ==> t <= now - WindowMillis
    ensures Slide(w, now) == {now}
  {
  }

  /** A burst without its last request is still a burst. */
  lemma BurstPrefix(times: seq<nat>)
    requires |times| > 1 && StrictlyIncreasing(times)
    requires times[|times| - 1] - times[0] < WindowMillis
    ensures var init := times[..|times| - 1];
            && StrictlyIncreasing(init) && init[0] == times[0]
            && init[|init| - 1] - init[0] < WindowMillis
  {
    var init := times[..|times| - 1];
    assert init[|init| - 1] == times[|times| - 2];
  }

  /** The earlier requests of a burst are all inside the last one's window. */
  lemma BurstEntriesRecent(times: seq<nat>, before: set<nat>)
    requires |times| > 1 && StrictlyIncreasing(times)
    requires times[|times| - 1] - times[0] < WindowMillis
    requires forall t :: t in before <==> t in times[..|times| - 1]
    ensures forall t :: t in before ==> times[|times| - 1] - WindowMillis < t < times[|times| - 1]
  {
    var init := times[..|times| - 1];
    forall t | t in before
      ensures times[|times| - 1] - WindowMillis < t < times[|times| - 1]
    {
      var i :| 0 <= i < |init| && init[i] == t;
      assert times[i] == t;
      assert times[0] <= times[i];
    }
  }

  /** Sliding a window whose entries are all recent and older than `now` just adds `now`. */
  lemma SlideAddsNewest(before: set<nat>, now: nat)
    requires forall t :: t in before ==> now - WindowMillis < t < now
    ensures Slide(before, now) == before + {now}
    ensures |Slide(before, now)| == |before| + 1
  {
    assert Insert(before, now) == before + {now};
    assert Prune(before + {now}, now) == before + {now};
    assert now !in before;
  }

  /** Within such a burst exactly the first `limit` requests are admitted; the
      next one, and every later one in the window, is rejected. Rejected
      requests also occupy an entry. */
  lemma RollingWindowAdmitsExactlyLimit(w: set<nat>, times: seq<nat>, limit: int, k: nat)
    requires |times| > 0 && StrictlyIncreasing(times)
    requires times[|times| - 1] - times[0] < WindowMillis
    requires forall t :: t in w ==> t <= times[0] - WindowMillis
    requires 1 <= k <= |times|
    ensures Admits(Replay(w, times[..k - 1]), times[k - 1], limit) <==> k <= limit
  {
    var prefix := times[..k];
    assert prefix[..k - 1] == times[..k - 1];
    assert prefix[0] == times[0] && prefix[k - 1] == times[k - 1];
    BurstWindow(w, prefix);
  }

  /** A tenant's key never collides with another tenant's. */
  lemma KeyInjective(a: string, b: string)
    requires a != b
    ensures Key(a) != Key(b)
  {
    assert Key(a)[|"rate_limit_"|..] == a;
    assert Key(b)[|"rate_limit_"|..] == b;
  }

  /** The shared store (one sorted set per tenant key) and the audit table. */
  class RateLimiter {
    var windows: map<string, set<nat>>
    var auditLog: seq<RateLimitLog>

    constructor ()
      ensures windows == map[] && auditLog == []
    {
      windows := map[];
      auditLog := [];
    }

    /** The tenant's current window (an absent key is an empty set). */
    function Window(tenant: string): set<nat>
      reads this
    {
      if Key(tenant) in windows then windows[Key(tenant)] else {}
    }

    /** The rate-limit block of the node's run: with the policy enabled, insert
        the request's timestamp, prune the window, count, and reject (writing one
        audit row) when the count exceeds the limit. */
    method Check(tenant: string, policy: RateLimitPolicy, now: nat) returns (admitted: bool)
      modifies this
      ensures admitted <==> !policy.enabled || Admits(old(Window(tenant)), now, policy.limit)
      ensures windows == if policy.enabled then old(windows)[Key(tenant) := Slide(old(Window(tenant)), now)]
                         else old(windows)
      ensures forall other :: other != tenant ==> Window(other) == old(Window(other))
      ensures auditLog == old(auditLog) +
                if admitted then [] else [RateLimitLog(tenant, policy.subscriptionPlan, "knowledge")]
    {
      admitted := true;
      if policy.enabled {
        var key := Key(tenant);
        var w := Window(tenant);
        windows := windows[key := Insert(w, now)];
        windows := windows[key := Prune(windows[key], now)];
        var requestCount := |windows[key]|;
        if requestCount > policy.limit {
          auditLog := auditLog + [RateLimitLog(tenant, policy.subscriptionPlan, "knowledge")];
          admitted := false;
        }
      }
      forall other | other != tenant
        ensures Window(other) == old(Window(other))
      {
        KeyInjective(other, tenant);
      }
    }
  }
}
