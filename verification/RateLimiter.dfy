/**
 The in-memory sliding-window rate limiter. It forgets hits that left the window; the results here say that
 forgetting changes no decision, and that no window anywhere in a run ever holds more than `capacity` admissions.
 */
module RateLimiter {

  datatype TokenBucket = TokenBucket(capacity: int, window: real, hits: seq<real>)

  type Buckets = map<string, TokenBucket>

  datatype Call = Call(key: string, capacity: int, window: real, now: real)

  // [hit for hit in hits if now - hit < window]
  function Recent(hits: seq<real>, now: real, window: real): seq<real>
  {
    if |hits| == 0 then []
    else
      var last := hits[|hits| - 1];
      Recent(hits[..|hits| - 1], now, window) + (if now - last < window then [last] else [])
  }

  // The effect of one call on the stored buckets, and whether it is admitted.
  function Step(buckets: Buckets, c: Call): (Buckets, bool)
  {
    var bucket := if c.key in buckets then buckets[c.key] else TokenBucket(c.capacity, c.window, []);
    var hits := Recent(bucket.hits, c.now, c.window);
    if |hits| >= c.capacity then (buckets[c.key := bucket.(hits := hits)], false)
    else (buckets[c.key := bucket.(hits := hits + [c.now])], true)
  }

  class InMemoryRateLimiter {
    var buckets: Buckets

    constructor ()
      ensures buckets == map[]
    {
      buckets := map[];
    }

    // `admitted == false` stands for the RATE_LIMITED error.
    method Check(key: string, capacity: int, window: real, now: real) returns (admitted: bool)
      modifies this
      ensures (buckets, admitted) == Step(old(buckets), Call(key, capacity, window, now))
      ensures forall other :: other != key ==> (other in buckets <==> other in old(buckets))
      ensures forall other :: other != key && other in buckets ==> buckets[other] == old(buckets)[other]
    {
      if key !in buckets {
        buckets := buckets[key := TokenBucket(capacity, window, [])];
      }
      buckets := buckets[key := buckets[key].(hits := Recent(buckets[key].hits, now, window))];
      if |buckets[key].hits| >= capacity {
        assert buckets == Step(old(buckets), Call(key, capacity, window, now)).0;
        return false;
      }
      buckets := buckets[key := buckets[key].(hits := buckets[key].hits + [now])];
      assert buckets == Step(old(buckets), Call(key, capacity, window, now)).0;
      return true;
    }
  }

  // ----- Whole runs -----

  function After(calls: seq<Call>): Buckets
  {
    if |calls| == 0 then map[] else Step(After(calls[..|calls| - 1]), calls[|calls| - 1]).0
  }

  function Stored(buckets: Buckets, key: string): seq<real>
  {
    if key in buckets then buckets[key].hits else []
  }

  predicate Admitted(before: seq<Call>, c: Call) { Step(After(before), c).1 }

  // Every time at which a call for `key` was ever admitted: the history the limiter does not keep.
  function History(calls: seq<Call>, key: string): seq<real>
  {
    if |calls| == 0 then []
    else
      var before, c := calls[..|calls| - 1], calls[|calls| - 1];
      History(before, key) + (if c.key == key && Admitted(before, c) then [c.now] else [])
  }

  // Number of times in the half-open interval [from, to).
  function CountIn(ts: seq<real>, from: real, to: real): nat
  {
    if |ts| == 0 then 0
    else CountIn(ts[..|ts| - 1], from, to) + (if from <= ts[|ts| - 1] < to then 1 else 0)
  }

  ghost predicate MonotoneClock(calls: seq<Call>)
  {
    forall i, j :: 0 <= i < j < |calls| ==> calls[i].now <= calls[j].now
  }

  ghost predicate FixedLimit(calls: seq<Call>, key: string, capacity: int, window: real)
  {
    forall i :: 0 <= i < |calls| && calls[i].key == key ==> calls[i].capacity == capacity && calls[i].window == window
  }

  lemma {:induction false} RecentOfRecent(hits: seq<real>, t: real, later: real, window: real)
    requires t <= later
    ensures Recent(Recent(hits, t, window), later, window) == Recent(hits, later, window)
  {
    if |hits| > 0 {
      var init, last := hits[..|hits| - 1], hits[|hits| - 1];
      RecentOfRecent(init, t, later, window);
      var kept := Recent(init, t, window);
      if t - last < window {
        assert (kept + [last])[..|kept|] == kept;
      } else {
        assert kept + [] == kept;
        assert Recent(init, later, window) + [] == Recent(init, later, window);
      }
    }
  }

  lemma RecentSnoc(hits: seq<real>, t: real, now: real, window: real)
    ensures Recent(hits + [t], now, window) == Recent(hits, now, window) + (if now - t < window then [t] else [])
  {
    assert (hits + [t])[..|hits|] == hits;
  }

  // One call moves the stored hits and the full history in step.
  lemma StepMovesHits(calls: seq<Call>, key: string, capacity: int, window: real)
    requires |calls| > 0 && FixedLimit(calls, key, capacity, window)
    ensures var before, c := calls[..|calls| - 1], calls[|calls| - 1]; var stored := Stored(After(before), key);
      && (c.key != key ==> Stored(After(calls), key) == stored && History(calls, key) == History(before, key))
      && (c.key == key && !Admitted(before, c) ==>
            Stored(After(calls), key) == Recent(stored, c.now, window) && History(calls, key) == History(before, key))
      && (c.key == key && Admitted(before, c) ==>
            Stored(After(calls), key) == Recent(stored, c.now, window) + [c.now]
            && History(calls, key) == History(before, key) + [c.now])
  {
    var before := calls[..|calls| - 1];
    assert History(before, key) + [] == History(before, key);
  }

  // Pruning is lossless: what is stored filters to the same recent hits as the full history does.
  lemma {:induction false} StoredHitsMatchHistory(calls: seq<Call>, key: string, capacity: int, window: real, now: real)
    requires MonotoneClock(calls) && FixedLimit(calls, key, capacity, window)
    requires forall i :: 0 <= i < |calls| ==> calls[i].now <= now
    ensures Recent(Stored(After(calls), key), now, window) == Recent(History(calls, key), now, window)
  {
    if |calls| > 0 {
      var before, c := calls[..|calls| - 1], calls[|calls| - 1];
      StoredHitsMatchHistory(before, key, capacity, window, now);
      StepMovesHits(calls, key, capacity, window);
      OneMoreHit(Stored(After(before), key), History(before, key), c.now, now, window);
    }
  }

  lemma OneMoreHit(stored: seq<real>, history: seq<real>, t: real, now: real, window: real)
    requires t <= now
    requires Recent(stored, now, window) == Recent(history, now, window)
    ensures Recent(Recent(stored, t, window), now, window) == Recent(history, now, window)
    ensures Recent(Recent(stored, t, window) + [t], now, window) == Recent(history + [t], now, window)
  {
    RecentOfRecent(stored, t, now, window);
    RecentSnoc(Recent(stored, t, window), t, now, window);
    RecentSnoc(history, t, now, window);
  }

  // Refinement: the pruning limiter decides exactly as a limiter that remembers every admission would.
  lemma PruningLimiterRefinesFullHistory(calls: seq<Call>, c: Call)
    requires MonotoneClock(calls + [c]) && FixedLimit(calls, c.key, c.capacity, c.window)
    ensures Admitted(calls, c) <==> |Recent(History(calls, c.key), c.now, c.window)| < c.capacity
  {
    var all := calls + [c];
    assert forall i :: 0 <= i < |calls| ==> all[i] == calls[i] && all[|calls|] == c;
    assert MonotoneClock(calls);
    StoredHitsMatchHistory(calls, c.key, c.capacity, c.window, c.now);
  }

  // Whatever lies in a window that contains `now` is still recent at `now`.
  lemma {:induction false} WindowIsRecent(ts: seq<real>, from: real, window: real, now: real)
    requires from <= now < from + window
    ensures CountIn(ts, from, from + window) <= |Recent(ts, now, window)|
  {
    if |ts| > 0 {
      WindowIsRecent(ts[..|ts| - 1], from, window, now);
    }
  }

  lemma CountSnoc(ts: seq<real>, t: real, from: real, to: real)
    ensures CountIn(ts + [t], from, to) == CountIn(ts, from, to) + (if from <= t < to then 1 else 0)
  {
    assert (ts + [t])[..|ts|] == ts;
  }

  // Safety over every run, every key and every window position.
  lemma {:induction false} NoWindowExceedsCapacity(calls: seq<Call>,
      key: string, capacity: int, window: real, from: real)
    requires MonotoneClock(calls) && FixedLimit(calls, key, capacity, window)
    ensures CountIn(History(calls, key), from, from + window) <= if capacity > 0 then capacity else 0
  {
    if |calls| > 0 {
      var before, c := calls[..|calls| - 1], calls[|calls| - 1];
      NoWindowExceedsCapacity(before, key, capacity, window, from);
      if c.key == key && Admitted(before, c) {
        assert before + [c] == calls;
        PruningLimiterRefinesFullHistory(before, c);
        CountSnoc(History(before, key), c.now, from, from + window);
        if from <= c.now < from + window {
          WindowIsRecent(History(before, key), from, window, c.now);
        }
      } else {
        assert History(before, key) + [] == History(before, key);
      }
    }
  }
}
