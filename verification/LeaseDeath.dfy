/** Exactly when a message can be declared dead, published or not: runs in which every worker dies between its claim
    and the recording of the result. */
module LeaseDeath {
  import opened Types
  import opened OutboxRows
  import opened Lease
  import opened LeaseInvariant
  import opened LeaseTheorems
  import opened LeasePool
  import opened LeaseWitnesses

  /** A publish of the message returned success. */
  ghost predicate Published(m: Message) {
    exists k | 0 <= k < |m.claims| :: m.claims[k].ok
  }

  /** Some message is dead; `ok` tells whether it was published. */
  ghost predicate DeadAfter(s: State, ok: bool) {
    exists id | id in s.messages :: s.messages[id].died && (Published(s.messages[id]) <==> ok)
  }

  /** Workers 1 to k have claimed the message in turn, each leaving its lease behind; `ok` tells how the publish of
      each ended. */
  ghost predicate Abandoned(m: Message, k: nat, ok: bool, now: Time) {
    && m.lock.None? && m.row.Some? && |m.claims| == k
    && (forall j | 0 <= j < k :: m.claims[j].ok == ok && m.claims[j].worker <= k)
    && var r := m.row.value;
    && r.attempts == k && r.processedAt.None? && r.nextRetryAt.None?
    && if k == 0 then r.status.Pending? else r.status.Processing? && r.claimedAt.Some? && r.claimedAt.value <= now
  }

  /** That message is the only one, and no worker is left. */
  ghost predicate Orphaned(s: State, k: nat, ok: bool) {
    s.workers == map[] && s.messages.Keys == {0} && Abandoned(s.messages[0], k, ok, s.clock)
  }

  const POOL := Pool(1, 1.0, 0.0)

  /** Once the last lease has expired, worker k + 1 joins. */
  lemma NextWorker(c: Config, s: State, k: nat, ok: bool) returns (s': State)
    requires ValidConfig(c) && Reached(c, POOL, s) && Orphaned(s, k, ok)
    ensures Reached(c, POOL, s') && s'.clock == s.clock + c.timeout + 1.0
    ensures s'.messages == s.messages && s'.workers == map[k + 1 := Idle]
  {
    hide Reached;
    var s1 := Wait(c, POOL, s, s.clock + c.timeout + 1.0);
    Step(c, POOL, s1, Join(k + 1));
    s' := Apply(c, s1, Join(k + 1));
  }

  lemma AbandonedIsClaimable(c: Config, s: State, k: nat, ok: bool, since: Time)
    requires ValidConfig(c) && s.messages.Keys == {0} && Abandoned(s.messages[0], k, ok, since)
    requires since + c.timeout < s.clock && k < c.policy.maxAttempts
    ensures AllClaimable(c, s) && AllHaveRows(s.messages) && |s.messages.Keys| == 1
    ensures NextAttempts(s.messages) == map[0 := k + 1]
  {
  }

  /** It claims the message and commits. */
  lemma ClaimIt(c: Config, s: State, k: nat, ok: bool) returns (s': State)
    requires ValidConfig(c) && 1 <= c.limit && k < c.policy.maxAttempts
    requires Reached(c, POOL, s) && Orphaned(s, k, ok)
    ensures Reached(c, POOL, s') && s'.messages.Keys == {0} && s.messages[0].row.Some?
    ensures s'.messages[0] == Leased(s.messages[0], k + 1, s'.clock)
    ensures s'.workers == map[k + 1 := Publishing(s'.clock, map[0 := k + 1])]
  {
    hide Reached, LeaseWitnesses.Released, ClaimDrafted, Leased, Claimable, AllClaimable, Abandoned, NextAttempts;
    var w := k + 1;
    var s1 := NextWorker(c, s, k, ok);
    AbandonedIsClaimable(c, s1, k, ok, s.clock);
    var s2 := Release(c, POOL, s1, w);
    var s3 := ClaimAll(c, POOL, s2, w, s1.messages);
    s' := CommitAll(c, POOL, s3, w, s1.messages, s3.clock);
  }

  /** Its publish returns success, if it is to. */
  lemma PublishIt(c: Config, s: State, w: WorkerId, at: Time, ok: bool) returns (s': State)
    requires Reached(c, POOL, s) && s.messages.Keys == {0} && 1 <= w == |s.messages[0].claims|
    requires s.workers == map[w := Publishing(at, map[0 := w])]
    requires Last(s.messages[0].claims) == Claim(w, at, None, None, false)
    ensures Reached(c, POOL, s') && s'.clock == s.clock && s'.workers == s.workers && s'.messages.Keys == {0}
    ensures s'.messages[0] == s.messages[0].(claims := s'.messages[0].claims)
    ensures |s'.messages[0].claims| == w && s'.messages[0].claims[..w - 1] == s.messages[0].claims[..w - 1]
    ensures Last(s'.messages[0].claims).worker == w && Last(s'.messages[0].claims).ok == ok
  {
    hide Reached;
    if ok {
      assert UnderWay(Records(s, w)) == {};
      Step(c, POOL, s, StartPublish(w, 0));
      var s1 := Apply(c, s, StartPublish(w, 0));
      Step(c, POOL, s1, FinishPublish(w, 0, true));
      s' := Apply(c, s1, FinishPublish(w, 0, true));
    } else {
      s' := s;
    }
  }

  /** It crashes before it records the result: one more claim is spent. */
  lemma OneMoreClaim(c: Config, s: State, k: nat, ok: bool) returns (s': State)
    requires ValidConfig(c) && 1 <= c.limit && k < c.policy.maxAttempts
    requires Reached(c, POOL, s) && Orphaned(s, k, ok)
    ensures Reached(c, POOL, s') && Orphaned(s', k + 1, ok)
  {
    hide Reached;
    var w := k + 1;
    var s1 := ClaimIt(c, s, k, ok);
    var s2 := PublishIt(c, s1, w, s1.clock, ok);
    Step(c, POOL, s2, Crash(w));
    s' := Apply(c, s2, Crash(w));
    assert s'.workers == map[];
    forall j | 0 <= j < w ensures s'.messages[0].claims[j].ok == ok && s'.messages[0].claims[j].worker <= w {
      assert s2.messages[0].claims[j].ok == ok && s2.messages[0].claims[j].worker <= w by {
        if j < k {
          assert s2.messages[0].claims[j] == s2.messages[0].claims[..k][j] == s.messages[0].claims[j];
        }
      }
    }
  }

  lemma {:induction false} Claims(c: Config, k: nat, ok: bool) returns (s: State)
    requires ValidConfig(c) && 1 <= c.limit && k <= c.policy.maxAttempts
    ensures Reached(c, POOL, s) && Orphaned(s, k, ok)
  {
    hide Reached;
    if k == 0 {
      s := Inserted(c, POOL, 1);
      assert 0 in s.messages && s.messages.Keys == {0};
    } else {
      var before := Claims(c, k - 1, ok);
      s := OneMoreClaim(c, before, k - 1, ok);
    }
  }

  // ---------------------------------------------------------------------------
  // The last poll
  // ---------------------------------------------------------------------------

  /** A message with a dead draft is out of reach of the rest of the poll. */
  lemma NothingToClaim(c: Config, s: State, w: WorkerId) returns (s': State)
    requires ValidConfig(c) && Reached(c, POOL, s) && s.messages.Keys == {0}
    requires w in s.workers && s.workers[w] == Polling(s.clock, 1, {}, {})
    requires HasDraft(s.messages, w, 0) && s.messages[0].lock.value.draft.value.status.Dead?
    ensures Reached(c, POOL, s') && s' == s.(workers := s.workers[w := Polling(s.clock, 3, {}, {})])
  {
    hide Reached;
    Step(c, POOL, s, ReleaseToPending(w));
    var s1 := Apply(c, s, ReleaseToPending(w));
    assert s1.messages == s.messages;
    assert Selectable(s1, w, s.clock, c.policy.maxAttempts) == {};
    Step(c, POOL, s1, ClaimBatch(w, {}));
    s' := Apply(c, s1, ClaimBatch(w, {}));
    assert s'.messages == s.messages && Selectable(s1, w, s.clock, c.policy.maxAttempts) - {} == {};
    assert s'.workers == s.workers[w := Polling(s.clock, 3, {}, {})];
  }

  lemma CommitDead(c: Config, s: State, w: WorkerId) returns (s': State)
    requires ValidConfig(c) && Reached(c, POOL, s) && s.messages.Keys == {0}
    requires w in s.workers && s.workers[w] == Polling(s.clock, 1, {}, {})
    requires HasDraft(s.messages, w, 0) && s.messages[0].lock.value.draft.value.status.Dead?
    ensures Reached(c, POOL, s') && 0 in s'.messages && s'.messages[0].died
    ensures s'.messages[0].claims == s.messages[0].claims
  {
    hide Reached;
    var s1 := NothingToClaim(c, s, w);
    Step(c, POOL, s1, Commit(w));
    s' := Apply(c, s1, Commit(w));
  }

  /** The poll that finds all attempts of the message spent declares it dead. */
  lemma DeclaredDead(c: Config, s: State, ok: bool) returns (s': State)
    requires ValidConfig(c) && Reached(c, POOL, s) && Orphaned(s, c.policy.maxAttempts, ok)
    ensures Reached(c, POOL, s') && DeadAfter(s', ok)
  {
    hide Reached;
    var w := c.policy.maxAttempts + 1;
    var s1 := NextWorker(c, s, w - 1, ok);
    Step(c, POOL, s1, BeginPoll(w));
    var s2 := Apply(c, s1, BeginPoll(w));
    Step(c, POOL, s2, ReleaseToDead(w, s2.clock));
    var s3 := Apply(c, s2, ReleaseToDead(w, s2.clock));
    s' := CommitDead(c, s3, w);
    assert s'.messages[0].claims[0].ok == ok;
  }

  lemma DeathNeeds(c: Config, s: State)
    requires ValidConfig(c) && Reachable(c, s) && exists id | id in s.messages :: s.messages[id].died
    ensures 1 <= c.limit
  {
    hide Inv, Enabled, Apply;
    var ss, acts :| IsRun(c, ss, acts) && ss[|acts|] == s;
    var id :| id in s.messages && s.messages[id].died;
    DiedAfterMaxClaims(c, ss, acts, |acts|, id);
    if c.limit == 0 {
      LimitZeroClaimsNothing(c, ss, acts, |acts|, id);
    }
  }

  lemma PooledIsReachable(c: Config, s: State)
    requires Reached(c, POOL, s)
    ensures Reachable(c, s)
  {
    hide Enabled, Apply, Pooled, Init;
    var ss, acts :| IsPooledRun(c, POOL, ss, acts) && ss[|acts|] == s;
    assert IsRun(c, ss, acts);
  }

  /** Under every setting that claims anything at all a message may be dead although its publishes returned success,
      and dead without a publish that did: every worker that claimed it died before recording the result, and the
      last lease expired at the limit. */
  lemma DeadWhateverWasPublished(c: Config, ok: bool)
    requires ValidConfig(c)
    ensures (exists s :: Reachable(c, s) && DeadAfter(s, ok)) <==> 1 <= c.limit
  {
    hide Reachable;
    forall s | Reachable(c, s) && DeadAfter(s, ok) ensures 1 <= c.limit {
      DeathNeeds(c, s);
    }
    hide DeadAfter, Reached, Orphaned;
    if 1 <= c.limit {
      var spent := Claims(c, c.policy.maxAttempts, ok);
      var s := DeclaredDead(c, spent, ok);
      PooledIsReachable(c, s);
    }
  }
}
