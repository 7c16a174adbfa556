/** Runs of the lease protocol that show where its guarantees end, and with them exactly when publishes of one
    message can overlap. */
module LeaseWitnesses {
  import opened Types
  import opened OutboxRows
  import opened Backoff
  import opened Lease
  import opened LeaseInvariant
  import opened LeaseTheorems
  import opened PublishPool
  import opened LeasePool

  /** Two publishes of one message, made under different leases, the earlier not over when the later began. */
  ghost predicate Overlaps(s: State) {
    exists id, j, k | 0 <= j < k && id in s.messages && k < |s.messages[id].claims| ::
      && s.messages[id].claims[j].start.Some? && s.messages[id].claims[k].start.Some?
      && !(s.messages[id].claims[j].finish.Some?
           && s.messages[id].claims[j].finish.value <= s.messages[id].claims[k].start.value)
  }

  /** Some pooled run leads to this state. */
  ghost predicate Reached(c: Config, pool: Pool, s: State)
  {
    exists ss, acts :: IsPooledRun(c, pool, ss, acts) && ss[|acts|] == s
  }

  lemma Step(c: Config, pool: Pool, s: State, a: Action)
    requires Reached(c, pool, s) && Enabled(c, s, a) && Pooled(pool, s, a)
    ensures Reached(c, pool, Apply(c, s, a))
  {
    hide Enabled, Apply, Pooled, Init;
    var ss, acts :| IsPooledRun(c, pool, ss, acts) && ss[|acts|] == s;
    var ss', acts' := ss + [Apply(c, s, a)], acts + [a];
    forall i | 0 <= i < |acts'|
      ensures Enabled(c, ss'[i], acts'[i]) && ss'[i + 1] == Apply(c, ss'[i], acts'[i]) && Pooled(pool, ss'[i], acts'[i])
    {
      if i < |acts| {
        assert Enabled(c, ss[i], acts[i]) && ss[i + 1] == Apply(c, ss[i], acts[i]) && Pooled(pool, ss[i], acts[i]);
      }
    }
    assert IsPooledRun(c, pool, ss', acts') && ss'[|acts'|] == Apply(c, s, a);
  }

  // ---------------------------------------------------------------------------
  // n messages, two workers
  // ---------------------------------------------------------------------------

  const FRESH := Message(0.0, Some(FreshRow(0.0)), None, [], 0, false)

  ghost predicate Ids(s: State, n: nat) {
    forall id: nat :: id in s.messages <==> id < n
  }

  ghost predicate AllFresh(s: State, n: nat) {
    Ids(s, n) && s.clock == 0.0 && forall id | id in s.messages :: s.messages[id] == FRESH
  }

  lemma {:induction false} Inserted(c: Config, pool: Pool, n: nat) returns (s: State)
    ensures Reached(c, pool, s) && AllFresh(s, n) && s.workers == map[]
  {
    if n == 0 {
      s := State(0.0, map[], map[]);
      var acts: seq<Action> := [];
      assert IsPooledRun(c, pool, [s], acts) && [s][|acts|] == s;
    } else {
      var before := Inserted(c, pool, n - 1);
      hide Reached;
      var a := Insert(n - 1, 0.0);
      Step(c, pool, before, a);
      s := Apply(c, before, a);
    }
  }

  const BOTH_IDLE: map<WorkerId, Phase> := map[1 := Idle, 2 := Idle]

  lemma TwoWorkers(c: Config, pool: Pool, n: nat) returns (s: State)
    ensures Reached(c, pool, s) && AllFresh(s, n) && s.workers == BOTH_IDLE
  {
    hide Reached;
    var s0 := Inserted(c, pool, n);
    Step(c, pool, s0, Join(1));
    var s1 := Apply(c, s0, Join(1));
    Step(c, pool, s1, Join(2));
    s := Apply(c, s1, Join(2));
  }

  // ---------------------------------------------------------------------------
  // A poll that claims everything
  // ---------------------------------------------------------------------------

  /** The row can be claimed by a poll at `now`, at once or after its lease is released. */
  ghost predicate Claimable(c: Config, m: Message, now: Time) {
    && m.lock.None? && m.row.Some?
    && var r := m.row.value;
    && r.processedAt.None? && r.attempts < c.policy.maxAttempts && (r.nextRetryAt.None? || r.nextRetryAt.value <= now)
    && (r.status.Pending? || Expired(r, now, c.timeout))
  }

  /** What the claim of `w` at `now` makes of such a row. */
  function ClaimedRow(r: Row, w: WorkerId, now: Time): Row {
    r.(status := Processing, claimedAt := Some(now), claimedBy := Some(w), attempts := r.attempts + 1)
  }

  ghost predicate AllClaimable(c: Config, s: State) {
    forall id | id in s.messages :: Claimable(c, s.messages[id], s.clock)
  }

  /** The poll of `w` after its two releases. */
  lemma Release(c: Config, pool: Pool, s: State, w: WorkerId) returns (s': State)
    requires Reached(c, pool, s) && w in s.workers && s.workers[w].Idle? && AllClaimable(c, s)
    ensures Reached(c, pool, s') && s'.clock == s.clock && s'.messages.Keys == s.messages.Keys
    ensures s'.workers == s.workers[w := Polling(s.clock, 2, {}, {})]
    ensures forall id | id in s.messages :: Released(c, s.messages[id], s'.messages[id], w, s.clock)
  {
    hide Reached;
    Step(c, pool, s, BeginPoll(w));
    var s1 := Apply(c, s, BeginPoll(w));
    Step(c, pool, s1, ReleaseToDead(w, s.clock));
    var s2 := Apply(c, s1, ReleaseToDead(w, s.clock));
    assert s2.messages == s.messages;
    Step(c, pool, s2, ReleaseToPending(w));
    s' := Apply(c, s2, ReleaseToPending(w));
  }

  /** The message as `w` sees it after the releases: the same row, pending, and nobody else's lock. */
  ghost predicate Released(c: Config, m: Message, m': Message, w: WorkerId, now: Time)
    requires m.row.Some?
  {
    && (m'.lock.None? || LockedBy(m', w)) && m' == m.(lock := m'.lock)
    && View(m', w).Some? && Eligible(View(m', w).value, now, c.policy.maxAttempts)
    && ClaimedRow(View(m', w).value, w, now) == ClaimedRow(m.row.value, w, now)
  }

  /** It can claim everything. */
  lemma AllSelectable(c: Config, s: State, w: WorkerId, before: Messages)
    requires w in s.workers && s.workers[w] == Polling(s.clock, 2, {}, {}) && 0.0 <= c.skew
    requires s.messages.Keys == before.Keys && |s.messages.Keys| <= c.limit && AllHaveRows(before)
    requires forall id | id in before :: Released(c, before[id], s.messages[id], w, s.clock)
    ensures Selectable(s, w, s.clock, c.policy.maxAttempts) == s.messages.Keys
    ensures Enabled(c, s, ClaimBatch(w, s.messages.Keys))
  {
    assert Selectable(s, w, s.clock, c.policy.maxAttempts) == s.messages.Keys;
  }

  lemma ClaimDrafts(c: Config, id: MessageId, m: Message, m': Message, w: WorkerId, now: Time, ids: set<MessageId>)
    requires m.row.Some? && Released(c, m, m', w, now) && id in ids
    ensures ClaimDrafted(m, Touch(ClaimIds(ids, now, w), id, m', w), w, now)
  {
  }

  /** ... and after its claim of everything. */
  lemma ClaimAll(c: Config, pool: Pool, s: State, w: WorkerId, before: Messages) returns (s': State)
    requires Reached(c, pool, s) && w in s.workers && s.workers[w] == Polling(s.clock, 2, {}, {}) && 0.0 <= c.skew
    requires s.messages.Keys == before.Keys && |s.messages.Keys| <= c.limit && AllHaveRows(before)
    requires forall id | id in before :: Released(c, before[id], s.messages[id], w, s.clock)
    ensures Reached(c, pool, s') && s'.clock == s.clock && s'.messages.Keys == before.Keys
    ensures s'.workers == s.workers[w := Polling(s.clock, 3, before.Keys, {})]
    ensures forall id | id in before :: ClaimDrafted(before[id], s'.messages[id], w, s.clock)
  {
    hide Reached, Enabled, Released, Selectable, Touch, ClaimDrafted;
    var now, ids := s.clock, s.messages.Keys;
    AllSelectable(c, s, w, before);
    var a := ClaimBatch(w, ids);
    Step(c, pool, s, a);
    s' := Apply(c, s, a);
    assert Selectable(s, w, now, c.policy.maxAttempts) - ids == {};
    forall id | id in before ensures ClaimDrafted(before[id], s'.messages[id], w, now) {
      ClaimDrafts(c, id, before[id], s.messages[id], w, now, ids);
    }
  }

  /** One message when that claim commits. */
  function Leased(m: Message, w: WorkerId, now: Time): Message
    requires m.row.Some?
  {
    m.(lock := None, row := Some(ClaimedRow(m.row.value, w, now)),
       claims := m.claims + [Claim(w, now, None, None, false)])
  }

  ghost predicate ClaimDrafted(m: Message, m': Message, w: WorkerId, now: Time) {
    m.row.Some? && m' == m.(lock := Some(Lock(w, Some(ClaimedRow(m.row.value, w, now)))))
  }

  lemma CommitLeases(id: MessageId, m: Message, m': Message, w: WorkerId, p: Phase)
    requires p.Polling? && id in p.taken && ClaimDrafted(m, m', w, p.now)
    ensures Settle(id, m', w, p) == Leased(m, w, p.now)
  {
  }

  ghost predicate AllHaveRows(ms: Messages) {
    forall id | id in ms :: ms[id].row.Some?
  }

  /** The `attempts` a claim of all these messages returns. */
  function NextAttempts(ms: Messages): map<MessageId, nat>
    requires AllHaveRows(ms)
  {
    map id | id in ms :: ms[id].row.value.attempts + 1
  }

  lemma CommitPublishes(ms: Messages, before: Messages, w: WorkerId, p: Phase)
    requires p.Polling? && p.taken == before.Keys == ms.Keys && before != map[]
    requires AllHaveRows(before) && forall id | id in before :: ClaimDrafted(before[id], ms[id], w, p.now)
    ensures AfterCommit(ms, w, p) == Publishing(p.now, NextAttempts(before))
  {
    assert before.Keys != {};
  }

  /** ... and committed: everything leased to `w`, which starts publishing. */
  lemma CommitAll(c: Config, pool: Pool, s: State, w: WorkerId, before: Messages, now: Time) returns (s': State)
    requires Reached(c, pool, s) && w in s.workers && s.workers[w] == Polling(now, 3, before.Keys, {})
    requires before != map[]
    requires s.messages.Keys == before.Keys && s.clock <= now + pool.delay
    requires AllHaveRows(before) && forall id | id in before :: ClaimDrafted(before[id], s.messages[id], w, now)
    ensures Reached(c, pool, s') && s'.clock == s.clock && s'.messages.Keys == before.Keys
    ensures s'.workers == s.workers[w := Publishing(now, NextAttempts(before))]
    ensures forall id | id in before :: s'.messages[id] == Leased(before[id], w, now)
  {
    hide Reached, ClaimDrafted, Settle, AfterCommit;
    var a := Commit(w);
    Step(c, pool, s, a);
    s' := Apply(c, s, a);
    forall id | id in before ensures Settle(id, s.messages[id], w, s.workers[w]) == Leased(before[id], w, now) {
      CommitLeases(id, before[id], s.messages[id], w, s.workers[w]);
    }
    CommitPublishes(s.messages, before, w, s.workers[w]);
  }

  // ---------------------------------------------------------------------------
  // Worker 1 publishes in rounds
  // ---------------------------------------------------------------------------

  const LEASED_ROW := ClaimedRow(FreshRow(0.0), 1, 0.0)

  ghost predicate IsBatch(p: Phase, n: nat) {
    && p.Publishing? && p.now == 0.0
    && (forall id: nat :: id in p.batch <==> id < n)
    && (forall id | id in p.batch :: p.batch[id] == 1)
  }

  /** Publishes below `f` are over, those from `f` to `k` are under way since `start`, the rest wait. */
  ghost predicate Progress(id: MessageId, m: Message, f: nat, k: nat, start: Time) {
    && m == Message(0.0, Some(LEASED_ROW), None, m.claims, 0, false) && |m.claims| == 1
    && var cl := m.claims[0];
    && cl.worker == 1 && cl.at == 0.0
    && (id < f ==> cl.start.Some? && cl.finish.Some?)
    && (f <= id < k ==> cl.start == Some(start) && cl.finish.None?)
    && (k <= id ==> cl.start.None? && cl.finish.None?)
  }

  ghost predicate Publishing1(s: State, n: nat, f: nat, k: nat, start: Time) {
    && f <= k <= n && Ids(s, n)
    && s.workers.Keys == {1, 2} && s.workers[2].Idle? && IsBatch(s.workers[1], n)
    && forall id | id in s.messages :: Progress(id, s.messages[id], f, k, start)
  }

  function Interval(f: nat, k: nat): (ids: set<nat>)
    requires f <= k
    ensures |ids| == k - f
    ensures forall id :: id in ids <==> f <= id < k
  {
    if f == k then {} else Interval(f, k - 1) + {k - 1}
  }

  lemma RecordOf1(s: State, n: nat, f: nat, k: nat, start: Time, id: MessageId)
    requires Publishing1(s, n, f, k, start) && id < n
    ensures id in s.messages && Running(s, 1, id) && Current(s, 1, id) == s.messages[id].claims[0]
    ensures Progress(id, s.messages[id], f, k, start)
  {
  }

  lemma RecordsOf1(s: State, n: nat, f: nat, k: nat, start: Time)
    requires f <= k <= n && Publishing1(s, n, f, k, start)
    ensures UnderWay(Records(s, 1)) == Interval(f, k)
    ensures Unstarted(Records(s, 1)) == Interval(k, n)
    ensures forall id | f <= id < k :: id in Records(s, 1) && Records(s, 1)[id].start == Some(start)
  {
    assert Ids(s, n);
    hide Publishing1, Running, Current, Interval;
    forall id: nat | id < n
      ensures id in Records(s, 1) && Records(s, 1)[id] == s.messages[id].claims[0]
      ensures Progress(id, s.messages[id], f, k, start)
    {
      RecordOf1(s, n, f, k, start, id);
    }
  }

  lemma RecordsOf2(s: State)
    requires 2 in s.workers && s.workers[2].Idle?
    ensures Records(s, 2) == map[]
  {
  }

  lemma NotStarted(id: MessageId, m: Message, f: nat, k: nat, start: Time)
    requires Progress(id, m, f, k, start) && k <= id
    ensures m.claims[0].start.None?
  {
  }

  lemma OneMoreStarted(s: State, n: nat, f: nat, k: nat, start: Time)
    requires f <= k < n && (f < k ==> start == s.clock) && Publishing1(s, n, f, k, start) && Running(s, 1, k)
    ensures Publishing1(WithCurrent(s, 1, k, Current(s, 1, k).(start := Some(s.clock))), n, f, k + 1, s.clock)
    ensures WithCurrent(s, 1, k, Current(s, 1, k).(start := Some(s.clock))).clock == s.clock
  {
    var s' := WithCurrent(s, 1, k, Current(s, 1, k).(start := Some(s.clock)));
    forall id | id in s'.messages ensures Progress(id, s'.messages[id], f, k + 1, s.clock) {
      assert Progress(id, s.messages[id], f, k, start);
    }
  }

  lemma StartNext(c: Config, pool: Pool, s: State, n: nat, f: nat, k: nat, start: Time) returns (s': State)
    requires f <= k < n && k - f < pool.permits && (f < k ==> start == s.clock)
    requires Reached(c, pool, s) && Publishing1(s, n, f, k, start)
    ensures Reached(c, pool, s') && Publishing1(s', n, f, k + 1, s.clock) && s'.clock == s.clock
  {
    hide Reached, Records, UnderWay, Unstarted, Publishing1, Progress, Running, Current, WithCurrent;
    RecordsOf1(s, n, f, k, start);
    RecordOf1(s, n, f, k, start, k);
    NotStarted(k, s.messages[k], f, k, start);
    var a := StartPublish(1, k);
    Step(c, pool, s, a);
    s' := Apply(c, s, a);
    OneMoreStarted(s, n, f, k, start);
  }

  lemma {:induction false} StartUpTo(c: Config, pool: Pool, s: State, n: nat, f: nat, k: nat, target: nat, start: Time)
    returns (s': State)
    requires f <= k <= target <= n && target <= f + pool.permits && start == s.clock
    requires Reached(c, pool, s) && Publishing1(s, n, f, k, start)
    ensures Reached(c, pool, s') && Publishing1(s', n, f, target, s.clock) && s'.clock == s.clock
    decreases target - k
  {
    hide Reached, Publishing1;
    if k == target {
      s' := s;
    } else {
      var s1 := StartNext(c, pool, s, n, f, k, start);
      s' := StartUpTo(c, pool, s1, n, f, k + 1, target, start);
    }
  }

  lemma NoRecords()
    ensures UnderWay(map[]) == {} && Unstarted(map[]) == {}
  {
  }

  /** With all permits taken, or nothing left to start, time runs on to the timeout. */
  lemma WaitForTimeout(c: Config, pool: Pool, s: State, n: nat, f: nat, k: nat) returns (s': State)
    requires f <= k <= n && (k == n || k - f == pool.permits) && 0.0 <= pool.timeout
    requires Reached(c, pool, s) && Publishing1(s, n, f, k, s.clock)
    ensures Reached(c, pool, s') && Publishing1(s', n, f, k, s.clock) && s'.clock == s.clock + pool.timeout
  {
    hide Reached, Records, UnderWay, Unstarted, Progress, Interval, IsBatch;
    RecordsOf1(s, n, f, k, s.clock);
    RecordsOf2(s);
    NoRecords();
    var a := Tick(s.clock + pool.timeout);
    Step(c, pool, s, a);
    s' := Apply(c, s, a);
  }

  lemma FinishNext(c: Config, pool: Pool, s: State, n: nat, f: nat, k: nat, start: Time) returns (s': State)
    requires f < k <= n && Reached(c, pool, s) && Publishing1(s, n, f, k, start)
    ensures Reached(c, pool, s') && Publishing1(s', n, f + 1, k, start) && s'.clock == s.clock
  {
    hide Reached;
    RecordOf1(s, n, f, k, start, f);
    var a := FinishPublish(1, f, true);
    Step(c, pool, s, a);
    s' := Apply(c, s, a);
    forall id | id in s'.messages ensures Progress(id, s'.messages[id], f + 1, k, start) {
      assert Progress(id, s.messages[id], f, k, start);
    }
  }

  lemma {:induction false} FinishAll(c: Config, pool: Pool, s: State, n: nat, f: nat, k: nat, start: Time)
    returns (s': State)
    requires f <= k <= n && Reached(c, pool, s) && Publishing1(s, n, f, k, start)
    ensures Reached(c, pool, s') && Publishing1(s', n, k, k, start) && s'.clock == s.clock
    decreases k - f
  {
    hide Reached, Publishing1;
    if f == k {
      s' := s;
    } else {
      var s1 := FinishNext(c, pool, s, n, f, k, start);
      s' := FinishAll(c, pool, s1, n, f + 1, k, start);
    }
  }

  lemma NewStart(s: State, n: nat, f: nat, start: Time, start': Time)
    requires Publishing1(s, n, f, f, start)
    ensures Publishing1(s, n, f, f, start')
  {
    forall id | id in s.messages ensures Progress(id, s.messages[id], f, f, start') {
      assert Progress(id, s.messages[id], f, f, start);
    }
  }

  lemma {:induction false} RoundEndShift(begin: Time, timeout: Time, rounds: nat)
    ensures RoundEnd(begin + timeout, timeout, rounds) == RoundEnd(begin, timeout, rounds + 1)
  {
    if rounds > 0 {
      RoundEndShift(begin, timeout, rounds - 1);
    }
  }

  /** All rounds, each as long as the timeout allows: when the last is still under way, ceil(n / permits) timeouts
      have passed. */
  lemma {:induction false} AllRounds(c: Config, pool: Pool, s: State, n: nat, f: nat)
    returns (s': State, f': nat, start: Time)
    requires Reached(c, pool, s) && Publishing1(s, n, f, f, s.clock) && f < n && 1 <= pool.permits
    requires 0.0 <= pool.timeout
    ensures Reached(c, pool, s') && f' < n && Publishing1(s', n, f', n, start)
    ensures s'.clock == RoundEnd(s.clock, pool.timeout, Ceil(n - f, pool.permits))
    decreases n - f
  {
    hide Reached, Publishing1;
    if n - f <= pool.permits {
      var s1 := StartUpTo(c, pool, s, n, f, f, n, s.clock);
      s' := WaitForTimeout(c, pool, s1, n, f, n);
      f', start := f, s.clock;
      assert RoundEnd(s.clock, pool.timeout, 1) == RoundEnd(s.clock, pool.timeout, 0) + pool.timeout;
    } else {
      var k := f + pool.permits;
      var s1 := StartUpTo(c, pool, s, n, f, f, k, s.clock);
      var s2 := WaitForTimeout(c, pool, s1, n, f, k);
      var s3 := FinishAll(c, pool, s2, n, f, k, s.clock);
      NewStart(s3, n, k, s.clock, s3.clock);
      s', f', start := AllRounds(c, pool, s3, n, k);
      RoundEndShift(s.clock, pool.timeout, Ceil(n - k, pool.permits));
    }
  }

  lemma IdsCount(s: State, n: nat)
    requires Ids(s, n)
    ensures |s.messages.Keys| == n
  {
    assert s.messages.Keys == Interval(0, n);
  }

  lemma FreshIsClaimable(c: Config, s: State, n: nat)
    requires ValidConfig(c) && AllFresh(s, n)
    ensures AllClaimable(c, s) && AllHaveRows(s.messages)
  {
  }

  /** While nobody publishes, time may pass. */
  lemma Wait(c: Config, pool: Pool, s: State, until: Time) returns (s': State)
    requires Reached(c, pool, s) && s.clock <= until && forall w | w in s.workers :: !s.workers[w].Publishing?
    ensures Reached(c, pool, s') && s' == s.(clock := until)
  {
    hide Reached;
    NoRecords();
    forall w | w in s.workers ensures Records(s, w) == map[] {
    }
    Step(c, pool, s, Tick(until));
    s' := Apply(c, s, Tick(until));
  }

  /** Worker 1 has claimed n messages and committed as late as it may. */
  lemma BatchClaimed(c: Config, pool: Pool, n: nat) returns (s: State)
    requires ValidConfig(c) && ValidPool(pool) && 1 <= n <= c.limit
    ensures Reached(c, pool, s) && Publishing1(s, n, 0, 0, s.clock) && s.clock == pool.delay
  {
    hide Reached;
    var s0 := TwoWorkers(c, pool, n);
    FreshIsClaimable(c, s0, n);
    IdsCount(s0, n);
    hide Claimable, Released, ClaimDrafted, AllClaimable, Publishing1, Leased;
    var s1 := Release(c, pool, s0, 1);
    var s2 := ClaimAll(c, pool, s1, 1, s0.messages);
    var s3 := Wait(c, pool, s2, pool.delay);
    assert 0 in s0.messages;
    s := CommitAll(c, pool, s3, 1, s0.messages, 0.0);
    LeasedIsProgress(s0, s, n);
  }

  lemma LeasedIsProgress(before: State, s: State, n: nat)
    requires AllFresh(before, n) && AllHaveRows(before.messages) && s.messages.Keys == before.messages.Keys
    requires forall id | id in before.messages :: s.messages[id] == Leased(before.messages[id], 1, 0.0)
    requires s.workers == BOTH_IDLE[1 := Publishing(0.0, NextAttempts(before.messages))]
    ensures Publishing1(s, n, 0, 0, s.clock)
  {
    forall id | id in s.messages ensures Progress(id, s.messages[id], 0, 0, s.clock) {
    }
  }

  /** Worker 1 is in its last round, ceil(n / permits) timeouts after its claim was committed. */
  lemma LastRound(c: Config, pool: Pool, n: nat) returns (s: State, f: nat, start: Time)
    requires ValidConfig(c) && ValidPool(pool) && 1 <= n <= c.limit
    ensures Reached(c, pool, s) && f < n && Publishing1(s, n, f, n, start)
    ensures s.clock == pool.delay + Ceil(n, pool.permits) as real * pool.timeout
  {
    hide Reached, Publishing1;
    var s0 := BatchClaimed(c, pool, n);
    s, f, start := AllRounds(c, pool, s0, n, 0);
    RoundEndIs(pool.delay, pool.timeout, Ceil(n, pool.permits));
  }

  lemma ExpiredIsClaimable(c: Config, s: State, n: nat, f: nat, start: Time)
    requires Publishing1(s, n, f, n, start) && 2 <= c.policy.maxAttempts && c.timeout < s.clock
    ensures AllClaimable(c, s) && AllHaveRows(s.messages) && Ids(s, n)
    ensures forall id | id in s.messages :: s.messages[id].row.value.attempts == |s.messages[id].claims|
  {
    forall id | id in s.messages ensures Claimable(c, s.messages[id], s.clock) {
      assert Progress(id, s.messages[id], f, n, start);
    }
  }

  lemma TwoWorkersThere(s: State, n: nat, f: nat, start: Time)
    requires Publishing1(s, n, f, n, start)
    ensures 2 in s.workers && s.workers[2].Idle?
  {
  }

  /** Worker 2 takes the expired batch over and publishes a message that worker 1 is still publishing. */
  lemma TakeOver(c: Config, pool: Pool, s: State, n: nat, f: nat, start: Time) returns (s': State)
    requires ValidConfig(c) && ValidPool(pool) && n <= c.limit && 2 <= c.policy.maxAttempts
    requires Reached(c, pool, s) && f < n && Publishing1(s, n, f, n, start) && c.timeout < s.clock
    ensures Reached(c, pool, s') && Overlaps(s')
  {
    hide Reached, Claimable, Released, ClaimDrafted, Publishing1, AllClaimable, Overlaps, Ids, Running, Current, Leased;
    TwoWorkersThere(s, n, f, start);
    ExpiredIsClaimable(c, s, n, f, start);
    IdsCount(s, n);
    RecordOf1(s, n, f, n, start, f);
    var s1 := Release(c, pool, s, 2);
    var s2 := ClaimAll(c, pool, s1, 2, s.messages);
    var s3 := CommitAll(c, pool, s2, 2, s.messages, s.clock);
    s' := PublishTaken(c, pool, s.messages, s3, f, start, s.clock);
  }

  lemma PublishTaken(c: Config, pool: Pool, before: Messages, s: State, f: MessageId, start: Time, now: Time)
    returns (s': State)
    requires Reached(c, pool, s) && 1 <= pool.permits && 2 in s.workers && AllHaveRows(before)
    requires s.messages.Keys == before.Keys && s.workers[2] == Publishing(now, NextAttempts(before))
    requires forall id | id in before :: s.messages[id] == Leased(before[id], 2, now)
    requires forall id | id in before :: before[id].row.value.attempts == |before[id].claims|
    requires f in before && |before[f].claims| == 1 && before[f].claims[0].start == Some(start)
    requires before[f].claims[0].finish.None?
    ensures Reached(c, pool, s') && Overlaps(s')
  {
    hide Reached;
    assert UnderWay(Records(s, 2)) == {};
    var a := StartPublish(2, f);
    Step(c, pool, s, a);
    s' := Apply(c, s, a);
    var h := s'.messages[f].claims;
    assert h[0].start.Some? && h[0].finish.None? && h[1].start.Some? && |h| == 2;
  }

  // ---------------------------------------------------------------------------
  // Exactly when publishes overlap
  // ---------------------------------------------------------------------------

  lemma StepClaimsNothing(c: Config, s: State, a: Action)
    requires Enabled(c, s, a) && AllBounded(c, s) && c.limit == 0
    requires forall id | id in s.messages :: s.messages[id].claims == []
    ensures forall id | id in Apply(c, s, a).messages :: Apply(c, s, a).messages[id].claims == []
  {
    hide Matches, Updated, Eligible;
    if a.Commit? {
      assert Bounded(c, s.workers[a.w]);
    }
  }

  lemma {:induction false} LimitZeroClaimsNothing(c: Config, ss: seq<State>, acts: seq<Action>, n: nat, id: MessageId)
    requires IsRun(c, ss, acts) && n < |ss| && c.limit == 0
    ensures forall x | x in ss[n].messages :: ss[n].messages[x].claims == []
  {
    hide Enabled, Apply, AllBounded;
    if n > 0 {
      LimitZeroClaimsNothing(c, ss, acts, n - 1, id);
      RunKeepsBounded(c, ss, acts, n - 1);
      StepClaimsNothing(c, ss[n - 1], acts[n - 1]);
    }
  }

  lemma OverlapNeeds(c: Config, pool: Pool, s: State)
    requires ValidConfig(c) && ValidPool(pool) && Reached(c, pool, s) && Overlaps(s)
    ensures 2 <= c.policy.maxAttempts && 1 <= c.limit && !FitsLease(c, pool)
  {
    hide Inv, Enabled, Apply, Pooled;
    var ss, acts :| IsPooledRun(c, pool, ss, acts) && ss[|acts|] == s;
    var id, j, k :| 0 <= j < k && id in s.messages && k < |s.messages[id].claims|
      && s.messages[id].claims[j].start.Some? && s.messages[id].claims[k].start.Some?
      && !(s.messages[id].claims[j].finish.Some?
           && s.messages[id].claims[j].finish.value <= s.messages[id].claims[k].start.value);
    RunKeepsInv(c, ss, acts, |acts|);
    ClaimsInBounds(c, s, id);
    if c.limit == 0 {
      LimitZeroClaimsNothing(c, ss, acts, |acts|, id);
    }
    if FitsLease(c, pool) {
      PooledPublishesNeverOverlap(c, pool, ss, acts, |acts|, id, j, k);
    }
  }

  /** With workers that publish through a pool, publishes of one message under different leases can overlap if and
      only if a message may be claimed twice and ceil(limit / permits) publish timeouts, plus the delay of the claim,
      exceed the claim timeout. */
  lemma OverlapExactlyWhen(c: Config, pool: Pool)
    requires ValidConfig(c) && ValidPool(pool)
    ensures (exists s :: Reached(c, pool, s) && Overlaps(s))
       <==> && 2 <= c.policy.maxAttempts && 1 <= c.limit
            && c.timeout < pool.delay + Ceil(c.limit, pool.permits) as real * pool.timeout
  {
    hide Reached, Overlaps;
    forall s | Reached(c, pool, s) && Overlaps(s)
      ensures 2 <= c.policy.maxAttempts && 1 <= c.limit && !FitsLease(c, pool)
    {
      OverlapNeeds(c, pool, s);
    }
    if 2 <= c.policy.maxAttempts && 1 <= c.limit && !FitsLease(c, pool) {
      var s, f, start := LastRound(c, pool, c.limit);
      var s' := TakeOver(c, pool, s, c.limit, f, start);
    }
  }

  /** Some run, pooled or not, leads to this state. */
  ghost predicate Reachable(c: Config, s: State) {
    exists ss, acts :: IsRun(c, ss, acts) && ss[|acts|] == s
  }

  /** With publishes of any length the lease by itself protects nothing: they can overlap as soon as a message may be
      claimed twice, whatever the claim timeout. */
  lemma UnpooledOverlapExactlyWhen(c: Config)
    requires ValidConfig(c)
    ensures (exists s :: Reachable(c, s) && Overlaps(s)) <==> 2 <= c.policy.maxAttempts && 1 <= c.limit
  {
    hide Overlaps;
    forall s | Reachable(c, s) && Overlaps(s) ensures 2 <= c.policy.maxAttempts && 1 <= c.limit {
      UnpooledOverlapNeeds(c, s);
    }
    if 2 <= c.policy.maxAttempts && 1 <= c.limit {
      var s := SlowPublishOverlaps(c);
    }
  }

  lemma UnpooledOverlapNeeds(c: Config, s: State)
    requires ValidConfig(c) && Reachable(c, s) && Overlaps(s)
    ensures 2 <= c.policy.maxAttempts && 1 <= c.limit
  {
    hide Inv, Enabled, Apply;
    var ss, acts :| IsRun(c, ss, acts) && ss[|acts|] == s;
    var id, j, k :| 0 <= j < k && id in s.messages && k < |s.messages[id].claims|
      && s.messages[id].claims[j].start.Some? && s.messages[id].claims[k].start.Some?
      && !(s.messages[id].claims[j].finish.Some?
           && s.messages[id].claims[j].finish.value <= s.messages[id].claims[k].start.value);
    RunKeepsInv(c, ss, acts, |acts|);
    ClaimsInBounds(c, s, id);
    if c.limit == 0 {
      LimitZeroClaimsNothing(c, ss, acts, |acts|, id);
    }
  }

  lemma SlowPublishOverlaps(c: Config) returns (s: State)
    requires ValidConfig(c) && 2 <= c.policy.maxAttempts && 1 <= c.limit
    ensures Reachable(c, s) && Overlaps(s)
  {
    hide Overlaps, Enabled, Apply, Pooled, Init, Publishing1;
    var pool := Pool(c.limit, c.timeout + 1.0, 0.0);
    assert Ceil(c.limit, c.limit) == 1;
    var last, f, start := LastRound(c, pool, c.limit);
    s := TakeOver(c, pool, last, c.limit, f, start);
  }

  /** One such setting: a claim timeout of 10 s, one message, and a publish that takes longer. */
  lemma LeaseCanBeOverrun()
    ensures exists s :: Reachable(Config(Policy(3, 1.0, 60.0, 0.0), 10.0, 1, 0.0), s) && Overlaps(s)
  {
    hide Overlaps, Reachable;
    UnpooledOverlapExactlyWhen(Config(Policy(3, 1.0, 60.0, 0.0), 10.0, 1, 0.0));
  }
}
