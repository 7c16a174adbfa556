/** The sliding-window rate limiter: the list it prunes at every call decides as the full history would. */
module RateLimiter {
  import opened Types

  type Store = map<string, seq<Time>>

  datatype Call = Call(key: string, now: Time)

  /** The calls of a list that are still inside the window, in order. */
  function Recent(calls: seq<Time>, now: Time, window: Time): (kept: seq<Time>)
    ensures |kept| <= |calls|
    ensures forall t :: t in kept <==> t in calls && now - t < window
  {
    if calls == [] then []
    else Recent(calls[..|calls| - 1], now, window)
         + (if now - calls[|calls| - 1] < window then [calls[|calls| - 1]] else [])
  }

  predicate Allows(calls: seq<Time>, now: Time, limit: int, window: Time) {
    |Recent(calls, now, window)| < limit
  }

  /** What one call leaves of a key's list. */
  function After(calls: seq<Time>, now: Time, limit: int, window: Time): seq<Time> {
    if Allows(calls, now, limit, window) then Recent(calls, now, window) + [now] else Recent(calls, now, window)
  }

  function Stored(store: Store, key: string): seq<Time> {
    if key in store then store[key] else []
  }

  function Serve(store: Store, call: Call, limit: int, window: Time): Store {
    store[call.key := After(Stored(store, call.key), call.now, limit, window)]
  }

  lemma {:induction false} RecentSplits(a: seq<Time>, b: seq<Time>, now: Time, window: Time)
    ensures Recent(a + b, now, window) == Recent(a, now, window) + Recent(b, now, window)
  {
    if b == [] {
      assert a + b == a;
    } else {
      assert (a + b)[..|a + b| - 1] == a + b[..|b| - 1];
      RecentSplits(a, b[..|b| - 1], now, window);
    }
  }

  /** Positions of the calls less than one window old. */
  ghost function YoungAt(calls: seq<Time>, now: Time, window: Time): set<nat> {
    set i: nat | i < |calls| && now - calls[i] < window
  }

  lemma {:induction false} RecentCounts(calls: seq<Time>, now: Time, window: Time)
    ensures |Recent(calls, now, window)| == |YoungAt(calls, now, window)|
  {
    if calls != [] {
      var last := |calls| - 1;
      RecentCounts(calls[..last], now, window);
      var before := YoungAt(calls[..last], now, window);
      assert YoungAt(calls, now, window) == before + if now - calls[last] < window then {last} else {};
    }
  }

  class InMemoryRateLimiter {
    var store: Store

    constructor ()
      ensures store == map[]
    {
      store := map[];
    }

    method Allow(key: string, limit: int, window: Time, now: Time) returns (allowed: bool)
      modifies this
      ensures store == Serve(old(store), Call(key, now), limit, window)
      ensures allowed <==> Allows(Stored(old(store), key), now, limit, window)
      ensures allowed <==> |YoungAt(Stored(old(store), key), now, window)| < limit
      ensures forall k | k != key :: Stored(store, k) == Stored(old(store), k)
      ensures Stored(store, key) == Recent(Stored(old(store), key), now, window) + if allowed then [now] else []
    {
      var calls := Stored(store, key);
      RecentCounts(calls, now, window);
      var kept := [];
      for i := 0 to |calls|
        invariant kept == Recent(calls[..i], now, window)
      {
        assert calls[..i + 1][..i] == calls[..i];
        if now - calls[i] < window {
          kept := kept + [calls[i]];
        }
      }
      assert calls[..|calls|] == calls;
      store := store[key := kept];
      if |store[key]| >= limit {
        return false;
      }
      store := store[key := store[key] + [now]];
      return true;
    }
  }

  // ---------------------------------------------------------------------------
  // Whole call sequences, with one limit and one window
  // ---------------------------------------------------------------------------

  function ServeAll(calls: seq<Call>, limit: int, window: Time): Store {
    if calls == [] then map[]
    else Serve(ServeAll(calls[..|calls| - 1], limit, window), calls[|calls| - 1], limit, window)
  }

  /** The full history: every allowed call for a key, which the limiter does not keep. */
  function History(calls: seq<Call>, key: string, limit: int, window: Time): seq<Time> {
    if calls == [] then []
    else
      var before, call := calls[..|calls| - 1], calls[|calls| - 1];
      if call.key == key && Allows(Stored(ServeAll(before, limit, window), key), call.now, limit, window)
      then History(before, key, limit, window) + [call.now]
      else History(before, key, limit, window)
  }

  /** The clock never runs backwards. */
  predicate InOrder(calls: seq<Call>) {
    forall i, j | 0 <= i <= j < |calls| :: calls[i].now <= calls[j].now
  }

  /** What an earlier prune dropped, a later one would have dropped anyway. */
  lemma {:induction false} PruneTwice(calls: seq<Time>, earlier: Time, now: Time, window: Time)
    requires earlier <= now
    ensures Recent(Recent(calls, earlier, window), now, window) == Recent(calls, now, window)
  {
    if calls != [] {
      var rest, last := calls[..|calls| - 1], calls[|calls| - 1];
      PruneTwice(rest, earlier, now, window);
      RecentSplits(Recent(rest, earlier, window), if earlier - last < window then [last] else [], now, window);
    }
  }

  /** At any time from the last call on, the pruned list and the full history hold the same calls in the window. */
  lemma {:induction false} PrunedHoldsTheWindow(calls: seq<Call>, key: string, limit: int, window: Time, now: Time)
    requires InOrder(calls) && (calls != [] ==> calls[|calls| - 1].now <= now)
    ensures Recent(Stored(ServeAll(calls, limit, window), key), now, window) ==
              Recent(History(calls, key, limit, window), now, window)
  {
    if calls != [] {
      var before, call := calls[..|calls| - 1], calls[|calls| - 1];
      PrunedHoldsTheWindow(before, key, limit, window, now);
      if call.key == key {
        var list := Stored(ServeAll(before, limit, window), key);
        PruneTwice(list, call.now, now, window);
        RecentSplits(Recent(list, call.now, window), [call.now], now, window);
        RecentSplits(History(before, key, limit, window), [call.now], now, window);
      }
    }
  }

  /** After any sequence of calls, deciding the next one from the pruned list is deciding it from the full
      history of allowed calls. */
  lemma DecidesAsFullHistory(calls: seq<Call>, next: Call, limit: int, window: Time)
    requires InOrder(calls + [next])
    ensures Allows(Stored(ServeAll(calls, limit, window), next.key), next.now, limit, window)
       <==> |YoungAt(History(calls, next.key, limit, window), next.now, window)| < limit
  {
    forall i, j | 0 <= i <= j < |calls| ensures calls[i].now <= calls[j].now {
      assert (calls + [next])[i].now <= (calls + [next])[j].now;
    }
    if calls != [] {
      assert (calls + [next])[|calls| - 1].now <= (calls + [next])[|calls|].now;
    }
    PrunedHoldsTheWindow(calls, next.key, limit, window, next.now);
    RecentCounts(History(calls, next.key, limit, window), next.now, window);
  }

  /** Number of calls in the half-open window [from, from + window). */
  function InWindow(calls: seq<Time>, from: Time, window: Time): (n: nat)
    ensures n <= |calls|
  {
    if calls == [] then 0
    else
      var last := calls[|calls| - 1];
      InWindow(calls[..|calls| - 1], from, window) + (if from <= last < from + window then 1 else 0)
  }

  /** Calls in a window that is still open at `now` are recent at `now`. */
  lemma {:induction false} WindowIsRecent(calls: seq<Time>, from: Time, window: Time, now: Time)
    requires now < from + window
    ensures InWindow(calls, from, window) <= |Recent(calls, now, window)|
  {
    if calls != [] {
      WindowIsRecent(calls[..|calls| - 1], from, window, now);
    }
  }

  /** No half-open window of the configured length ever holds more than `limit` allowed calls of one key. */
  lemma {:induction false} NoWindowExceedsLimit(calls: seq<Call>, key: string, limit: int, window: Time, from: Time)
    requires InOrder(calls)
    ensures InWindow(History(calls, key, limit, window), from, window) <= if limit < 0 then 0 else limit
  {
    if calls != [] {
      var before, call := calls[..|calls| - 1], calls[|calls| - 1];
      NoWindowExceedsLimit(before, key, limit, window, from);
      assert before + [call] == calls;
      DecidesAsFullHistory(before, call, limit, window);
      var h := History(before, key, limit, window);
      RecentCounts(h, call.now, window);
      assert (h + [call.now])[..|h|] == h;
      if from <= call.now < from + window {
        WindowIsRecent(History(before, key, limit, window), from, window, call.now);
      }
    }
  }

  // ---------------------------------------------------------------------------
  // Any clock: exactly when the limit fails
  // ---------------------------------------------------------------------------

  /** Some half-open window holds more allowed calls of the key than the limit. */
  ghost predicate Exceeds(calls: seq<Call>, key: string, limit: int, window: Time) {
    exists from :: InWindow(History(calls, key, limit, window), from, window) > if limit < 0 then 0 else limit
  }

  /** Call n reads the clock at reading number at[n], and later calls at later readings or the same. */
  ghost predicate ReadsAt(calls: seq<Call>, readings: seq<Time>, at: seq<nat>) {
    && |at| == |calls|
    && (forall n | 0 <= n < |at| :: at[n] < |readings| && calls[n].now == readings[at[n]])
    && (forall m, n | 0 <= m <= n < |at| :: at[m] <= at[n])
  }

  /** The calls read the clock in the order of `readings`, any reading any number of times. */
  ghost predicate Reads(calls: seq<Call>, readings: seq<Time>) {
    exists at :: ReadsAt(calls, readings, at)
  }

  /** Between readings i and j a whole window passes, and reading k is back within one window of reading i. */
  predicate Jump(readings: seq<Time>, window: Time, i: int, j: int, k: int) {
    && 0 <= i < j < k < |readings|
    && readings[j] - readings[i] >= window
    && -window < readings[k] - readings[i] < window
  }

  /** The clock leaves a reading behind by a whole window, and then comes back to within one window of it. */
  ghost predicate JumpsBack(readings: seq<Time>, window: Time) {
    exists i, j, k :: Jump(readings, window, i, j, k)
  }

  function Times(calls: seq<Call>): seq<Time> {
    seq(|calls|, n requires 0 <= n < |calls| => calls[n].now)
  }

  lemma {:induction false} HistoryIsFromCalls(calls: seq<Call>, key: string, limit: int, window: Time, t: Time)
    requires t in History(calls, key, limit, window)
    ensures exists n | 0 <= n < |calls| :: calls[n].now == t
  {
    if calls[|calls| - 1].now != t {
      HistoryIsFromCalls(calls[..|calls| - 1], key, limit, window, t);
      var n :| 0 <= n < |calls| - 1 && calls[..|calls| - 1][n].now == t;
      assert calls[n].now == t;
    }
  }

  lemma {:induction false} StoredIsFromHistory(calls: seq<Call>, key: string, limit: int, window: Time, t: Time)
    requires t in Stored(ServeAll(calls, limit, window), key)
    ensures t in History(calls, key, limit, window)
  {
    if calls != [] {
      var before, call := calls[..|calls| - 1], calls[|calls| - 1];
      if t in Stored(ServeAll(before, limit, window), key) {
        StoredIsFromHistory(before, key, limit, window, t);
      }
    }
  }

  lemma InWindowSplits(calls: seq<Time>, last: Time, from: Time, window: Time)
    ensures InWindow(calls + [last], from, window) ==
              InWindow(calls, from, window) + (if from <= last < from + window then 1 else 0)
  {
    assert (calls + [last])[..|calls|] == calls;
  }

  /** Pruning at a time at which every call of the window is still recent keeps them all. */
  lemma {:induction false} PruneKeepsWindow(calls: seq<Time>, now: Time, from: Time, window: Time)
    requires forall t | t in calls && from <= t < from + window :: now - t < window
    ensures InWindow(Recent(calls, now, window), from, window) == InWindow(calls, from, window)
  {
    if calls != [] {
      var rest, last := calls[..|calls| - 1], calls[|calls| - 1];
      assert forall t | t in rest :: t in calls;
      PruneKeepsWindow(rest, now, from, window);
      assert last in calls && Recent(rest, now, window) + [] == Recent(rest, now, window);
      if now - last < window {
        InWindowSplits(Recent(rest, now, window), last, from, window);
      }
    }
  }

  /** No call of the window was ever pruned. */
  ghost predicate NothingPruned(calls: seq<Call>, key: string, limit: int, window: Time, from: Time) {
    forall n, t | 0 <= n < |calls| && t in History(calls[..n], key, limit, window) && from <= t < from + window ::
      calls[n].now - t < window
  }

  lemma NothingPrunedBefore(calls: seq<Call>, key: string, limit: int, window: Time, from: Time)
    requires calls != [] && NothingPruned(calls, key, limit, window, from)
    ensures var before, call := calls[..|calls| - 1], calls[|calls| - 1];
            && NothingPruned(before, key, limit, window, from)
            && forall t | t in History(before, key, limit, window) && from <= t < from + window :: call.now - t < window
  {
    var before := calls[..|calls| - 1];
    forall n, t | 0 <= n < |before| && t in History(before[..n], key, limit, window) && from <= t < from + window
      ensures before[n].now - t < window
    {
      assert before[..n] == calls[..n];
    }
  }

  /** What the last call adds to the list of a key and to its history. */
  lemma LastCall(calls: seq<Call>, key: string, limit: int, window: Time)
    requires calls != []
    ensures var before, call := calls[..|calls| - 1], calls[|calls| - 1];
            var list, h := Stored(ServeAll(before, limit, window), key), History(before, key, limit, window);
            var added := if call.key == key && Allows(list, call.now, limit, window) then [call.now] else [];
            && Stored(ServeAll(calls, limit, window), key)
               == (if call.key == key then Recent(list, call.now, window) else list) + added
            && History(calls, key, limit, window) == h + added
  {
  }

  lemma {:induction false} ListHoldsTheWindow(calls: seq<Call>, key: string, limit: int, window: Time, from: Time)
    requires NothingPruned(calls, key, limit, window, from)
    ensures InWindow(Stored(ServeAll(calls, limit, window), key), from, window) ==
              InWindow(History(calls, key, limit, window), from, window)
  {
    hide NothingPruned;
    if calls != [] {
      var before, call := calls[..|calls| - 1], calls[|calls| - 1];
      NothingPrunedBefore(calls, key, limit, window, from);
      ListHoldsTheWindow(before, key, limit, window, from);
      LastCall(calls, key, limit, window);
      hide History, ServeAll, Recent, Allows;
      if call.key == key {
        var list := Stored(ServeAll(before, limit, window), key);
        forall t | t in list && from <= t < from + window ensures call.now - t < window {
          StoredIsFromHistory(before, key, limit, window, t);
        }
        hide Stored;
        PruneKeepsWindow(list, call.now, from, window);
        InWindowSplits(Recent(list, call.now, window), call.now, from, window);
        InWindowSplits(History(before, key, limit, window), call.now, from, window);
      }
    }
  }

  lemma PrunedMeansJump(calls: seq<Call>, key: string, limit: int, window: Time, from: Time)
    requires calls != [] && from <= calls[|calls| - 1].now < from + window
    requires !NothingPruned(calls[..|calls| - 1], key, limit, window, from)
    ensures JumpsBack(Times(calls), window)
  {
    hide History;
    var before := calls[..|calls| - 1];
    var n, t :| 0 <= n < |before| && t in History(before[..n], key, limit, window)
                && from <= t < from + window && before[n].now - t >= window;
    HistoryIsFromCalls(before[..n], key, limit, window, t);
    var m :| 0 <= m < n && before[..n][m].now == t;
    var ts := Times(calls);
    assert ts[m] == t && ts[n] == before[n].now && ts[|before|] == calls[|before|].now;
    assert Jump(ts, window, m, n, |before|);
  }

  /** An overfull window means that one of its calls was pruned before the last of them came. */
  lemma {:induction false} OverfullMeansJump(calls: seq<Call>, key: string, limit: int, window: Time, from: Time)
    requires InWindow(History(calls, key, limit, window), from, window) > if limit < 0 then 0 else limit
    ensures JumpsBack(Times(calls), window)
  {
    hide NothingPruned, JumpsBack;
    if calls != [] {
      var before, call := calls[..|calls| - 1], calls[|calls| - 1];
      var h := History(before, key, limit, window);
      if InWindow(h, from, window) > if limit < 0 then 0 else limit {
        OverfullMeansJump(before, key, limit, window, from);
        JumpInPrefix(before, call, window);
        assert before + [call] == calls;
      } else {
        InWindowSplits(h, call.now, from, window);
        WindowIsRecent(Stored(ServeAll(before, limit, window), key), from, window, call.now);
        if NothingPruned(before, key, limit, window, from) {
          ListHoldsTheWindow(before, key, limit, window, from);
          assert false;
        }
        PrunedMeansJump(calls, key, limit, window, from);
      }
    }
  }

  lemma JumpInPrefix(before: seq<Call>, call: Call, window: Time)
    requires JumpsBack(Times(before), window)
    ensures JumpsBack(Times(before + [call]), window)
  {
    var b, a := Times(before), Times(before + [call]);
    var i, j, k :| Jump(b, window, i, j, k);
    assert a[i] == b[i] && a[j] == b[j] && a[k] == b[k];
    assert Jump(a, window, i, j, k);
  }

  ghost predicate Spaced(h: seq<Time>, window: Time) {
    forall i, j | 0 <= i < j < |h| :: h[i] + window <= h[j]
  }

  function Latest(h: seq<Time>): seq<Time> {
    if h == [] then [] else [h[|h| - 1]]
  }

  /** One call with a limit of one: allowed when the latest call is a window ago, and then it is the latest. */
  lemma OneCall(h: seq<Time>, now: Time, window: Time)
    requires 0.0 < window
    ensures Allows(Latest(h), now, 1, window) <==> h == [] || now - h[|h| - 1] >= window
    ensures After(Latest(h), now, 1, window) == Latest(if Allows(Latest(h), now, 1, window) then h + [now] else h)
  {
    if h != [] {
      assert Latest(h)[..0] == [];
    }
  }

  lemma SpacedExtends(h: seq<Time>, now: Time, window: Time)
    requires 0.0 < window && Spaced(h, window) && (h != [] ==> now - h[|h| - 1] >= window)
    ensures Spaced(h + [now], window)
  {
  }

  /** With a limit of one the list is always the latest allowed call, and allowed calls lie a window apart. */
  lemma {:induction false} LimitOneIsSpaced(calls: seq<Call>, key: string, window: Time)
    requires 0.0 < window
    ensures Spaced(History(calls, key, 1, window), window)
    ensures Stored(ServeAll(calls, 1, window), key) == Latest(History(calls, key, 1, window))
  {
    hide Spaced, Allows, After;
    if calls != [] {
      var now := calls[|calls| - 1].now;
      var h := History(calls[..|calls| - 1], key, 1, window);
      LimitOneIsSpaced(calls[..|calls| - 1], key, window);
      OneCall(h, now, window);
      if Allows(Latest(h), now, 1, window) {
        SpacedExtends(h, now, window);
      }
    } else {
      NothingIsSpaced(window);
    }
  }

  lemma NothingIsSpaced(window: Time)
    ensures Spaced([], window)
  {
  }

  lemma {:induction false} SpacedWindowHoldsOne(h: seq<Time>, from: Time, window: Time)
    requires Spaced(h, window)
    ensures InWindow(h, from, window) <= 1
  {
    if h != [] {
      SpacedWindowHoldsOne(h[..|h| - 1], from, window);
      if from <= h[|h| - 1] < from + window {
        NoneInWindow(h[..|h| - 1], from, window);
      }
    }
  }

  lemma {:induction false} NoneInWindow(h: seq<Time>, from: Time, window: Time)
    requires forall i | 0 <= i < |h| :: !(from <= h[i] < from + window)
    ensures InWindow(h, from, window) == 0
  {
    if h != [] {
      NoneInWindow(h[..|h| - 1], from, window);
    }
  }

  lemma {:induction false} NothingAllowed(calls: seq<Call>, key: string, limit: int, window: Time)
    requires limit <= 0
    ensures History(calls, key, limit, window) == []
  {
    if calls != [] {
      NothingAllowed(calls[..|calls| - 1], key, limit, window);
    }
  }

  lemma JumpOfReadings(calls: seq<Call>, readings: seq<Time>, window: Time)
    requires Reads(calls, readings) && JumpsBack(Times(calls), window)
    ensures JumpsBack(readings, window)
  {
    var ts := Times(calls);
    var at :| ReadsAt(calls, readings, at);
    var i, j, k :| Jump(ts, window, i, j, k);
    assert readings[at[i]] == ts[i] && readings[at[j]] == ts[j] && readings[at[k]] == ts[k];
    assert Jump(readings, window, at[i], at[j], at[k]);
  }

  lemma ExceedsNeedsTwo(calls: seq<Call>, key: string, limit: int, window: Time)
    requires 0.0 < window && Exceeds(calls, key, limit, window)
    ensures limit >= 2
  {
    var h := History(calls, key, limit, window);
    var from :| InWindow(h, from, window) > if limit < 0 then 0 else limit;
    if limit <= 0 {
      NothingAllowed(calls, key, limit, window);
    } else if limit == 1 {
      LimitOneIsSpaced(calls, key, window);
      SpacedWindowHoldsOne(h, from, window);
    }
  }

  /** The limit can only fail when it is at least two and the clock jumps back. */
  lemma FailureNeedsJump(calls: seq<Call>, readings: seq<Time>, key: string, limit: int, window: Time)
    requires Reads(calls, readings) && Exceeds(calls, key, limit, window)
    ensures limit >= 2 && JumpsBack(readings, window)
  {
    var from :| InWindow(History(calls, key, limit, window), from, window) > if limit < 0 then 0 else limit;
    OverfullMeansJump(calls, key, limit, window, from);
    JumpOfReadings(calls, readings, window);
    ExceedsNeedsTwo(calls, key, limit, window);
  }

  /** n calls of the key at one time. */
  function Burst(key: string, now: Time, n: nat): seq<Call> {
    seq(n, _ => Call(key, now))
  }

  function Copies(t: Time, n: nat): seq<Time> {
    seq(n, _ => t)
  }

  lemma {:induction false} RecentCopies(t: Time, n: nat, now: Time, window: Time)
    ensures Recent(Copies(t, n), now, window) == if now - t < window then Copies(t, n) else []
  {
    if n > 0 {
      assert Copies(t, n)[..n - 1] == Copies(t, n - 1);
      assert Copies(t, n - 1) + [t] == Copies(t, n);
      RecentCopies(t, n - 1, now, window);
    }
  }

  lemma {:induction false} BurstIsAllowed(key: string, now: Time, n: nat, limit: int, window: Time)
    requires n <= limit && 0.0 < window
    ensures Stored(ServeAll(Burst(key, now, n), limit, window), key) == Copies(now, n)
    ensures History(Burst(key, now, n), key, limit, window) == Copies(now, n)
  {
    if n > 0 {
      assert Burst(key, now, n)[..n - 1] == Burst(key, now, n - 1);
      assert Copies(now, n - 1) + [now] == Copies(now, n);
      BurstIsAllowed(key, now, n - 1, limit, window);
      RecentCopies(now, n - 1, now, window);
    }
  }

  lemma {:induction false} CopiesInWindow(t: Time, n: nat, from: Time, window: Time)
    requires from <= t < from + window
    ensures InWindow(Copies(t, n), from, window) == n
  {
    if n > 0 {
      assert Copies(t, n)[..n - 1] == Copies(t, n - 1);
      CopiesInWindow(t, n - 1, from, window);
    }
  }

  /** A full burst, one call that empties the list, and one call back in the window of the burst. */
  function Comeback(key: string, a: Time, b: Time, c: Time, limit: nat): seq<Call> {
    Burst(key, a, limit) + [Call(key, b)] + [Call(key, c)]
  }

  lemma ComebackHistory(key: string, a: Time, b: Time, c: Time, limit: nat, window: Time)
    requires limit >= 2 && 0.0 < window && b - a >= window
    ensures History(Comeback(key, a, b, c, limit), key, limit, window) == Copies(a, limit) + [b] + [c]
  {
    var s0 := Burst(key, a, limit);
    var s1 := s0 + [Call(key, b)];
    var s2 := Comeback(key, a, b, c, limit);
    assert s1[..limit] == s0 && s2[..limit + 1] == s1;
    BurstIsAllowed(key, a, limit, limit, window);
    RecentCopies(a, limit, b, window);
    assert Stored(ServeAll(s1, limit, window), key) == [b];
    assert |Recent([b], c, window)| <= 1;
  }

  lemma ComebackExceeds(key: string, a: Time, b: Time, c: Time, limit: nat, window: Time)
    requires limit >= 2 && b - a >= window && -window < c - a < window
    ensures Exceeds(Comeback(key, a, b, c, limit), key, limit, window)
  {
    var from := if a <= c then a else c;
    ComebackHistory(key, a, b, c, limit, window);
    CopiesInWindow(a, limit, from, window);
    InWindowSplits(Copies(a, limit), b, from, window);
    InWindowSplits(Copies(a, limit) + [b], c, from, window);
    assert InWindow(History(Comeback(key, a, b, c, limit), key, limit, window), from, window) > limit;
  }

  lemma ComebackReads(key: string, readings: seq<Time>, i: nat, j: nat, k: nat, limit: nat)
    requires i < j < k < |readings|
    ensures Reads(Comeback(key, readings[i], readings[j], readings[k], limit), readings)
  {
    var at: seq<nat> := seq(limit, _ => i) + [j] + [k];
    var calls := Comeback(key, readings[i], readings[j], readings[k], limit);
    assert ReadsAt(calls, readings, at);
  }

  /** For any clock readings: some calls at those readings break the limit if and only if the limit is at least two
      and the clock jumps back over a window's length. */
  lemma LimitFailsExactlyWhen(readings: seq<Time>, key: string, limit: int, window: Time)
    ensures (exists calls :: Reads(calls, readings) && Exceeds(calls, key, limit, window))
       <==> limit >= 2 && JumpsBack(readings, window)
  {
    if limit >= 2 && JumpsBack(readings, window) {
      var i, j, k :| Jump(readings, window, i, j, k);
      ComebackReads(key, readings, i, j, k, limit);
      ComebackExceeds(key, readings[i], readings[j], readings[k], limit, window);
    }
    forall calls | Reads(calls, readings) && Exceeds(calls, key, limit, window)
      ensures limit >= 2 && JumpsBack(readings, window)
    {
      FailureNeedsJump(calls, readings, key, limit, window);
    }
  }

  /** One such clock: 0, 20, 2 with a window of 10. */
  lemma BackwardClockBreaksTheLimit(key: string)
    ensures exists calls :: Reads(calls, [0.0, 20.0, 2.0]) && Exceeds(calls, key, 2, 10.0)
  {
    var readings: seq<Time> := [0.0, 20.0, 2.0];
    assert Jump(readings, 10.0, 0, 1, 2);
    LimitFailsExactlyWhen(readings, key, 2, 10.0);
  }
}
