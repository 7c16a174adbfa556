/** What the lease protocol guarantees over whole runs. */
module LeaseTheorems {
  import opened Types
  import opened Sums
  import opened OutboxRows
  import opened Backoff
  import opened Lease
  import opened LeaseInvariant

  /** A run: any interleaving of steps from the empty outbox. */
  ghost predicate IsRun(c: Config, ss: seq<State>, acts: seq<Action>) {
    && |ss| == |acts| + 1
    && Init(ss[0])
    && forall i | 0 <= i < |acts| :: Enabled(c, ss[i], acts[i]) && ss[i + 1] == Apply(c, ss[i], acts[i])
  }

  lemma {:induction false} RunKeepsInv(c: Config, ss: seq<State>, acts: seq<Action>, n: nat)
    requires ValidConfig(c) && IsRun(c, ss, acts) && n < |ss|
    ensures Inv(c, ss[n])
  {
    if n > 0 {
      RunKeepsInv(c, ss, acts, n - 1);
      StepKeepsInv(c, ss[n - 1], acts[n - 1]);
    }
  }

  // ---------------------------------------------------------------------------
  // Fencing without a token
  // ---------------------------------------------------------------------------

  ghost predicate Owns(s: State, w: WorkerId, id: MessageId) {
    id in s.messages && s.messages[id].row.Some? && OwnedBy(s.messages[id].row.value, w)
  }

  lemma MarkHitsOwnRow(c: Config, s: State, a: Action, id: MessageId)
    requires Inv(c, s) && Enabled(c, s, a) && (a.MarkOk? || a.MarkFailed?) && id in s.messages
    ensures Hits(StatementOf(c, s, a).value, id, s.messages[id], a.w) <==> id == a.id && Owns(s, a.w, id)
  {
    assert MessageOk(c, s.clock, id, s.messages[id], s.workers);
    assert PhaseOk(s.messages, s.clock, a.w, s.workers[a.w]);
  }

  lemma FencingAt(c: Config, s: State, a: Action)
    requires Inv(c, s) && Enabled(c, s, a) && (a.MarkOk? || a.MarkFailed?)
    ensures !Owns(s, a.w, a.id) ==> Apply(c, s, a).messages == s.messages
    ensures Owns(s, a.w, a.id) ==>
              && s.messages[a.id].lock.None?
              && Apply(c, s, a).messages[a.id].lock.Some?
              && s.messages[a.id].row.value.attempts == s.workers[a.w].batch[a.id] == |s.messages[a.id].claims|
              && s.messages[a.id].row.value.claimedAt == Some(s.workers[a.w].now)
  {
    forall id | id in s.messages && (id != a.id || !Owns(s, a.w, a.id))
      ensures Apply(c, s, a).messages[id] == s.messages[id]
    {
      MarkHitsOwnRow(c, s, a, id);
    }
    if Owns(s, a.w, a.id) {
      assert MessageOk(c, s.clock, a.id, s.messages[a.id], s.workers);
      assert PhaseOk(s.messages, s.clock, a.w, s.workers[a.w]);
      MarkHitsOwnRow(c, s, a, a.id);
      LeaseIsFromThisBatch(c, s.clock, s.messages, s.workers, a.w, a.id);
    }
  }

  /** A mark changes something exactly when the worker still owns the row; then the lease is the one its
      current batch took, nobody else holds a lock, and the database counts the same attempt as the
      worker's snapshot. A worker whose lease was released or retaken changes nothing. */
  lemma Fencing(c: Config, ss: seq<State>, acts: seq<Action>, n: nat)
    requires ValidConfig(c) && IsRun(c, ss, acts) && n < |acts|
    requires acts[n].MarkOk? || acts[n].MarkFailed?
    ensures var s, w, id := ss[n], acts[n].w, acts[n].id;
            && w in s.workers && s.workers[w].Marking? && id in s.workers[w].batch && id in s.messages
            && (ss[n + 1].messages != s.messages <==> Owns(s, w, id))
            && (Owns(s, w, id) ==>
                  && s.messages[id].lock.None?
                  && s.messages[id].row.value.attempts == s.workers[w].batch[id] == |s.messages[id].claims|
                  && s.messages[id].row.value.claimedAt == Some(s.workers[w].now))
  {
    RunKeepsInv(c, ss, acts, n);
    FencingAt(c, ss[n], acts[n]);
  }

  /** The worker's own verdict (None means dead) and the CASE the database evaluates never disagree:
      after an effective failure mark the draft is dead if and only if the worker passed None, and a
      retry time reaches the row unchanged. */
  lemma VerdictsAgree(c: Config, ss: seq<State>, acts: seq<Action>, n: nat)
    requires ValidConfig(c) && IsRun(c, ss, acts) && n < |acts|
    requires acts[n].MarkFailed? && Owns(ss[n], acts[n].w, acts[n].id)
    ensures var s, s', w, id := ss[n], ss[n + 1], acts[n].w, acts[n].id;
            && w in s.workers && s.workers[w].Marking? && id in s.workers[w].batch && 1 <= s.workers[w].batch[id]
            && id in s'.messages && LockedBy(s'.messages[id], w) && s'.messages[id].lock.value.draft.Some?
            && var verdict := WorkerRetryAt(c, s.workers[w], id, acts[n].factor);
            var draft := s'.messages[id].lock.value.draft.value;
            && (verdict.None? <==> draft.status.Dead?)
            && (verdict.Some? <==> draft.status.Pending?)
            && draft.nextRetryAt == verdict
  {
    Fencing(c, ss, acts, n);
  }

  // ---------------------------------------------------------------------------
  // Termination of every message
  // ---------------------------------------------------------------------------

  /** How one step can change the committed row of a message: not at all, upwards in rank from an undecided
      status, or from a terminal status to deletion. */
  ghost predicate Climbs(max: nat, before: Option<Row>, after: Option<Row>) {
    || after == before
    || (before.Some? && after.Some? && !Terminal(before.value) && Rank(before.value) < Rank(after.value) <= 2 * max)
    || (before.Some? && after.None? && Terminal(before.value))
  }

  lemma RankBound(r: Row, max: nat)
    requires RowInv(r, max)
    ensures 0 <= Rank(r) <= 2 * max
  {
  }

  lemma RankInBounds(c: Config, s: State, id: MessageId)
    requires Inv(c, s) && id in s.messages
    ensures s.messages[id].row.Some? ==> 0 <= Rank(s.messages[id].row.value) <= 2 * c.policy.maxAttempts
  {
    assert MessageOk(c, s.clock, id, s.messages[id], s.workers);
  }

  lemma SameRowClimbs(max: nat, row: Option<Row>)
    ensures Climbs(max, row, row)
  {
  }

  lemma SettleClimbs(c: Config, clock: Time, id: MessageId, m: Message, ws: map<WorkerId, Phase>, w: WorkerId, p: Phase)
    requires MessageOk(c, clock, id, m, ws)
    ensures Climbs(c.policy.maxAttempts, m.row, Settle(id, m, w, p).row)
  {
    if LockedBy(m, w) && m.lock.value.draft.Some? {
      RankBound(m.lock.value.draft.value, c.policy.maxAttempts);
    }
  }

  lemma StepClimbs(c: Config, s: State, a: Action, id: MessageId)
    requires ValidConfig(c) && Inv(c, s) && Enabled(c, s, a) && id in s.messages
    ensures id in Apply(c, s, a).messages
    ensures Climbs(c.policy.maxAttempts, s.messages[id].row, Apply(c, s, a).messages[id].row)
  {
    hide WorkersOk, MessageOk, Settle, Updated, Matches, Climbs;
    assert MessageOk(c, s.clock, id, s.messages[id], s.workers);
    if a.Commit? {
      SettleClimbs(c, s.clock, id, s.messages[id], s.workers, a.w, s.workers[a.w]);
    } else {
      assert Apply(c, s, a).messages[id].row == s.messages[id].row;
      SameRowClimbs(c.policy.maxAttempts, s.messages[id].row);
    }
  }

  ghost function RowAt(s: State, id: MessageId): Option<Row> {
    if id in s.messages then s.messages[id].row else None
  }

  /** Number of steps up to state n that changed the committed row of `id` into another row. */
  ghost function Changes(ss: seq<State>, id: MessageId, n: nat): nat
    requires n < |ss|
  {
    if n == 0 then 0
    else Changes(ss, id, n - 1)
         + (if RowAt(ss[n - 1], id).Some? && RowAt(ss[n], id).Some? && RowAt(ss[n - 1], id) != RowAt(ss[n], id)
            then 1 else 0)
  }

  /** A message changes status at most 2 * OUTBOX_MAX_ATTEMPTS times, over all workers and any run. */
  lemma {:induction false} AtMostTwiceMaxChanges(c: Config, ss: seq<State>, acts: seq<Action>, id: MessageId, n: nat)
    requires ValidConfig(c) && IsRun(c, ss, acts) && n < |ss|
    ensures Changes(ss, id, n) <= 2 * c.policy.maxAttempts
    ensures RowAt(ss[n], id).Some? ==> Changes(ss, id, n) <= Rank(RowAt(ss[n], id).value)
    ensures id !in ss[n].messages ==> Changes(ss, id, n) == 0
  {
    hide Inv, Enabled, Apply, Rank;
    RunKeepsInv(c, ss, acts, n);
    if id in ss[n].messages {
      RankInBounds(c, ss[n], id);
    }
    if n > 0 {
      AtMostTwiceMaxChanges(c, ss, acts, id, n - 1);
      RunKeepsInv(c, ss, acts, n - 1);
      if id in ss[n - 1].messages {
        StepClimbs(c, ss[n - 1], acts[n - 1], id);
      }
    }
  }

  /** Once processed or dead, a message stays exactly as it is until it is deleted, for the rest of the run. */
  lemma {:induction false} TerminalIsFinal(c: Config, ss: seq<State>, acts: seq<Action>, id: MessageId, i: nat, j: nat)
    requires ValidConfig(c) && IsRun(c, ss, acts) && i <= j < |ss|
    requires RowAt(ss[i], id).Some? && Terminal(RowAt(ss[i], id).value)
    ensures id in ss[j].messages
    ensures RowAt(ss[j], id) == RowAt(ss[i], id) || RowAt(ss[j], id).None?
    decreases j - i
  {
    hide Inv, Enabled, Apply, Rank;
    if i < j {
      TerminalIsFinal(c, ss, acts, id, i, j - 1);
      RunKeepsInv(c, ss, acts, j - 1);
      StepClimbs(c, ss[j - 1], acts[j - 1], id);
    }
  }

  ghost function Starts(h: seq<Claim>): nat {
    if h == [] then 0 else Starts(h[..|h| - 1]) + (if Last(h).start.Some? then 1 else 0)
  }

  lemma {:induction false} StartsBound(h: seq<Claim>)
    ensures Starts(h) <= |h|
  {
    if h != [] {
      StartsBound(h[..|h| - 1]);
    }
  }

  lemma {:induction false} StartsSame(h: seq<Claim>, h': seq<Claim>)
    requires |h| == |h'| && forall k | 0 <= k < |h| :: h[k].start.Some? == h'[k].start.Some?
    ensures Starts(h) == Starts(h')
  {
    if h != [] {
      StartsSame(h[..|h| - 1], h'[..|h| - 1]);
    }
  }

  lemma {:induction false} StartsOneMore(h: seq<Claim>, k: nat, cl: Claim)
    requires k < |h| && h[k].start.None? && cl.start.Some?
    ensures Starts(h[k := cl]) == Starts(h) + 1
  {
    var h' := h[k := cl];
    if k == |h| - 1 {
      assert h'[..|h| - 1] == h[..|h| - 1];
    } else {
      StartsOneMore(h[..|h| - 1], k, cl);
      assert h'[..|h| - 1] == h[..|h| - 1][k := cl];
    }
  }

  ghost function ClaimsAt(s: State, id: MessageId): seq<Claim> {
    if id in s.messages then s.messages[id].claims else []
  }

  /** Number of publishes of `id` started by anybody up to state n. */
  ghost function Publishes(acts: seq<Action>, id: MessageId, n: nat): nat
    requires n <= |acts|
  {
    if n == 0 then 0
    else Publishes(acts, id, n - 1) + (if acts[n - 1].StartPublish? && acts[n - 1].id == id then 1 else 0)
  }

  lemma StepStarts(c: Config, s: State, a: Action, id: MessageId)
    requires Enabled(c, s, a)
    ensures Starts(ClaimsAt(Apply(c, s, a), id))
         == Starts(ClaimsAt(s, id)) + (if a.StartPublish? && a.id == id then 1 else 0)
  {
    hide Matches, Updated, Eligible;
    var h, h' := ClaimsAt(s, id), ClaimsAt(Apply(c, s, a), id);
    if a.StartPublish? && a.id == id {
      StartsOneMore(h, s.workers[a.w].batch[id] - 1, h'[s.workers[a.w].batch[id] - 1]);
    } else if |h'| == |h| {
      StartsSame(h, h');
    } else {
      assert h'[..|h'| - 1] == h;
    }
  }

  lemma ClaimsInBounds(c: Config, s: State, id: MessageId)
    requires Inv(c, s)
    ensures |ClaimsAt(s, id)| <= c.policy.maxAttempts
  {
    if id in s.messages {
      assert MessageOk(c, s.clock, id, s.messages[id], s.workers);
    }
  }

  /** Over all workers, crashes and retries a message is published at most OUTBOX_MAX_ATTEMPTS times. */
  lemma {:induction false} AtMostMaxPublishes(c: Config, ss: seq<State>, acts: seq<Action>, id: MessageId, n: nat)
    requires ValidConfig(c) && IsRun(c, ss, acts) && n < |ss|
    ensures Publishes(acts, id, n) == Starts(ClaimsAt(ss[n], id)) <= c.policy.maxAttempts
  {
    hide Inv, Enabled, Apply;
    RunKeepsInv(c, ss, acts, n);
    ClaimsInBounds(c, ss[n], id);
    StartsBound(ClaimsAt(ss[n], id));
    if n > 0 {
      AtMostMaxPublishes(c, ss, acts, id, n - 1);
      StepStarts(c, ss[n - 1], acts[n - 1], id);
    }
  }

  // ---------------------------------------------------------------------------
  // Reaping and purging
  // ---------------------------------------------------------------------------

  /** In a run `reap_exhausted` never finds a row, and a purge never deletes an undecided message. */
  lemma ReapAndPurge(c: Config, ss: seq<State>, acts: seq<Action>, n: nat)
    requires ValidConfig(c) && IsRun(c, ss, acts) && n < |acts|
    ensures acts[n].ReapExhausted? ==> ss[n + 1].messages == ss[n].messages
    ensures forall id | id in ss[n].messages && ss[n].messages[id].row.Some? && RowAt(ss[n + 1], id).None? ::
              Terminal(ss[n].messages[id].row.value)
  {
    RunKeepsInv(c, ss, acts, n);
    forall id | id in ss[n].messages
      ensures ss[n].messages[id].row.Some? && RowAt(ss[n + 1], id).None? ==> Terminal(ss[n].messages[id].row.value)
      ensures acts[n].ReapExhausted? ==> ss[n + 1].messages[id] == ss[n].messages[id]
    {
      StepClimbs(c, ss[n], acts[n], id);
      assert MessageOk(c, ss[n].clock, id, ss[n].messages[id], ss[n].workers);
      if acts[n].ReapExhausted? {
        PurgerSeesReachableRows(c, ss[n], acts[n].w, id);
      }
    }
  }

  lemma PurgerSeesReachableRows(c: Config, s: State, w: WorkerId, id: MessageId)
    requires Inv(c, s) && id in s.messages && w in s.workers && s.workers[w].Purging?
    ensures View(s.messages[id], w).Some? ==> RowInv(View(s.messages[id], w).value, c.policy.maxAttempts)
  {
    assert MessageOk(c, s.clock, id, s.messages[id], s.workers);
  }

  // ---------------------------------------------------------------------------
  // Committed rows, published and dead messages
  // ---------------------------------------------------------------------------

  /** Every committed row of every run: lease fields exactly while processing, finish time exactly when terminal,
      attempts within the limit and equal to the claims made, and processed only after a publish that returned
      success. */
  lemma CommittedRows(c: Config, ss: seq<State>, acts: seq<Action>, n: nat, id: MessageId)
    requires ValidConfig(c) && IsRun(c, ss, acts) && n < |ss| && id in ss[n].messages && ss[n].messages[id].row.Some?
    ensures var row, h := ss[n].messages[id].row.value, ss[n].messages[id].claims;
            && RowInv(row, c.policy.maxAttempts)
            && row.attempts == |h|
            && (row.status.Processed? ==> h != [] && Last(h).start.Some? && Last(h).finish.Some? && Last(h).ok)
  {
    RunKeepsInv(c, ss, acts, n);
    assert MessageOk(c, ss[n].clock, id, ss[n].messages[id], ss[n].workers);
  }

  /** A message that is no longer waiting or in work was published with success, unless it has been declared dead. */
  lemma PublishedUnlessDied(c: Config, ss: seq<State>, acts: seq<Action>, n: nat, id: MessageId)
    requires ValidConfig(c) && IsRun(c, ss, acts) && n < |ss| && id in ss[n].messages
    requires ss[n].messages[id].row.None? || Terminal(ss[n].messages[id].row.value)
    ensures || ss[n].messages[id].died
            || exists k | 0 <= k < |ss[n].messages[id].claims| :: ss[n].messages[id].claims[k].ok
  {
    RunKeepsInv(c, ss, acts, n);
    assert MessageOk(c, ss[n].clock, id, ss[n].messages[id], ss[n].workers);
  }

  ghost predicate DiedSpentAll(c: Config, m: Message) {
    m.died ==> |m.claims| == c.policy.maxAttempts
  }

  lemma DeathIsCommitted(c: Config, s: State, a: Action, id: MessageId)
    requires Enabled(c, s, a) && !a.Commit? && id in Apply(c, s, a).messages
    ensures var m' := Apply(c, s, a).messages[id];
            if id in s.messages then m'.died == s.messages[id].died && |m'.claims| == |s.messages[id].claims|
            else !m'.died
  {
    hide Matches, Updated;
  }

  lemma SettleKeepsSpentAll(c: Config, clock: Time, id: MessageId, m: Message, ws: map<WorkerId, Phase>, w: WorkerId)
    requires MessageOk(c, clock, id, m, ws) && w in ws && DiedSpentAll(c, m)
    requires ws[w].Polling? && id in ws[w].taken ==> LockedBy(m, w)
    ensures DiedSpentAll(c, Settle(id, m, w, ws[w]))
  {
    hide Cooling, HistoryInv;
  }

  lemma StepKeepsSpentAll(c: Config, s: State, a: Action, id: MessageId)
    requires ValidConfig(c) && Inv(c, s) && Enabled(c, s, a) && id in Apply(c, s, a).messages
    requires id in s.messages ==> DiedSpentAll(c, s.messages[id])
    ensures DiedSpentAll(c, Apply(c, s, a).messages[id])
  {
    hide MessageOk, Settle, EntryOk, FinishedEntry, RunStatement;
    if a.Commit? {
      assert MessageOk(c, s.clock, id, s.messages[id], s.workers);
      assert PhaseOk(s.messages, s.clock, a.w, s.workers[a.w]);
      SettleKeepsSpentAll(c, s.clock, id, s.messages[id], s.workers, a.w);
    } else {
      DeathIsCommitted(c, s, a, id);
    }
  }

  /** A message is declared dead only when it has spent exactly OUTBOX_MAX_ATTEMPTS claims. */
  lemma {:induction false} DiedAfterMaxClaims(c: Config, ss: seq<State>, acts: seq<Action>, n: nat, id: MessageId)
    requires ValidConfig(c) && IsRun(c, ss, acts) && n < |ss| && id in ss[n].messages
    ensures ss[n].messages[id].died ==> |ss[n].messages[id].claims| == c.policy.maxAttempts
  {
    hide Inv, Enabled, Apply;
    if n > 0 {
      if id in ss[n - 1].messages {
        DiedAfterMaxClaims(c, ss, acts, n - 1, id);
      }
      RunKeepsInv(c, ss, acts, n - 1);
      RunKeepsInv(c, ss, acts, n);
      StepKeepsSpentAll(c, ss[n - 1], acts[n - 1], id);
    }
  }

  // ---------------------------------------------------------------------------
  // Backoff spacing
  // ---------------------------------------------------------------------------

  /** The sum of the least gaps between the first and claim number n + 1. */
  function GapSum(c: Config, n: nat): Time {
    if n == 0 then 0.0 else GapSum(c, n - 1) + Gap(c, n)
  }

  lemma {:induction false} SpacedSum(c: Config, h: seq<Claim>, n: nat)
    requires Spaced(c, h) && n < |h|
    ensures h[0].at + GapSum(c, n) <= h[n].at
  {
    if n > 0 {
      SpacedSum(c, h, n - 1);
      assert h[n - 1].at + Gap(c, n) <= h[n].at;
    }
  }

  lemma GapDoubles(c: Config, n: nat)
    requires 1 <= n
    ensures Gap(c, n) == Min(Min(Doubled(c.policy.baseDelay, n - 1), c.policy.maxDelay), c.timeout - c.skew)
  {
    DoubledIsPower(c.policy.baseDelay, n - 1);
  }

  /** In every run, claims k and k + 1 of a message lie at least min(base * 2^(k-1), cap, timeout - skew) apart,
      so claim number n + 1 comes at least the sum of those gaps after the first. */
  lemma BackoffSpacing(c: Config, ss: seq<State>, acts: seq<Action>, i: nat, id: MessageId, n: nat)
    requires ValidConfig(c) && IsRun(c, ss, acts) && i < |ss|
    requires id in ss[i].messages && n < |ss[i].messages[id].claims|
    ensures n < c.policy.maxAttempts
    ensures var h := ss[i].messages[id].claims;
            h[0].at + GapSum(c, n) <= h[n].at && (n > 0 ==> h[n - 1].at + Gap(c, n) <= h[n].at)
    ensures n > 0 ==> Gap(c, n) == Min(Min(Doubled(c.policy.baseDelay, n - 1), c.policy.maxDelay), c.timeout - c.skew)
  {
    if n > 0 {
      GapDoubles(c, n);
    }
    hide Gap;
    RunKeepsInv(c, ss, acts, i);
    assert MessageOk(c, ss[i].clock, id, ss[i].messages[id], ss[i].workers);
    SpacedSum(c, ss[i].messages[id].claims, n);
  }
}
