/** Which event separates two claims of one message decides how far apart they lie: a recorded publish failure
    puts at least its backoff between them, an expired lease more than the claim timeout. */
module LeaseSpacing {
  import opened Types
  import opened OutboxRows
  import opened Backoff
  import opened Lease
  import opened LeaseInvariant
  import opened LeaseTheorems

  // ---------------------------------------------------------------------------
  // Why a draft is what it is
  // ---------------------------------------------------------------------------

  /** A lease that an uncommitted poll has taken away had expired, and its row is dead or pending with the retry time
      it had; a failure that an uncommitted mark has recorded put the row off by the backoff of the latest claim. */
  ghost predicate ReasonOk(c: Config, id: MessageId, m: Message, ws: map<WorkerId, Phase>) {
    m.lock.Some? && m.lock.value.owner in ws ==>
      var p, draft := ws[m.lock.value.owner], m.lock.value.draft;
      && (p.Polling? && m.row.Some? && m.row.value.status.Processing? ==> Expired(m.row.value, p.now, c.timeout))
      && (p.Polling? && id !in p.taken ==>
            && m.row.Some? && m.row.value.status.Processing? && draft.Some?
            && (draft.value.status.Dead?
                || (draft.value.status.Pending? && draft.value.nextRetryAt == m.row.value.nextRetryAt)))
      && (p.Marking? && draft.Some? && draft.value.status.Pending? ==>
            && m.claims != [] && draft.value.nextRetryAt.Some?
            && Last(m.claims).at + Delay(c.policy, |m.claims|) <= draft.value.nextRetryAt.value)
  }

  ghost predicate ReasonsOk(c: Config, s: State) {
    forall id | id in s.messages :: ReasonOk(c, id, s.messages[id], s.workers)
  }

  lemma PollKeepsReason(c: Config, clock: Time, id: MessageId, m: Message, ws: map<WorkerId, Phase>, w: WorkerId,
                        st: Statement, p': Phase)
    requires ReasonOk(c, id, m, ws) && w in ws && ws[w].Polling? && Issues(c, clock, ws[w], st, p')
    requires Hits(st, id, m, w) && (m.lock.None? || LockedBy(m, w))
    requires Issued(st, id, View(m, w).value, c.policy.maxAttempts)
    ensures ReasonOk(c, id, Touch(st, id, m, w), ws[w := p'])
  {
  }

  lemma MarkKeepsReason(c: Config, id: MessageId, m: Message, ws: map<WorkerId, Phase>, w: WorkerId, st: Statement,
                        p': Phase)
    requires w in ws && ws[w].Marking? && p'.Marking? && (st.MarkProcessed? || st.MarkFailure?)
    requires Hits(st, id, m, w) && TellsResult(c, m.claims, View(m, w).value, st)
    requires st.MarkFailure? ==> st.maxAttempts == c.policy.maxAttempts
    ensures ReasonOk(c, id, Touch(st, id, m, w), ws[w := p'])
  {
  }

  lemma MissKeepsReason(c: Config, id: MessageId, m: Message, ws: map<WorkerId, Phase>, w: WorkerId, st: Statement,
                        p': Phase)
    requires ReasonOk(c, id, m, ws) && w in ws && !Hits(st, id, m, w)
    requires ws[w].Polling? ==> p'.Polling? && p'.now == ws[w].now && (id in ws[w].taken <==> id in p'.taken)
    requires ws[w].Marking? ==> p'.Marking?
    requires ws[w].Purging? ==> p'.Purging?
    requires TxOpen(ws[w])
    ensures ReasonOk(c, id, Touch(st, id, m, w), ws[w := p'])
  {
  }

  lemma StatementKeepsReason(c: Config, s: State, a: Action, id: MessageId)
    requires ValidConfig(c) && Inv(c, s) && ReasonsOk(c, s) && Enabled(c, s, a) && IsStatement(a) && id in s.messages
    ensures ReasonOk(c, id, Touch(StatementOf(c, s, a).value, id, s.messages[id], a.w),
                     s.workers[a.w := Advanced(c, s, a)])
  {
    hide ReasonOk, MessagesOk, RowInv;
    var st, m, p, p' := StatementOf(c, s, a).value, s.messages[id], s.workers[a.w], Advanced(c, s, a);
    assert PhaseOk(s.messages, s.clock, a.w, p);
    StatementIsIssued(c, s, a);
    if !Hits(st, id, m, a.w) {
      MissKeepsReason(c, id, m, s.workers, a.w, st, p');
    } else if p.Polling? {
      PollKeepsReason(c, s.clock, id, m, s.workers, a.w, st, p');
    } else if p.Marking? {
      MarkTellsResult(c, s, a);
      MarkKeepsReason(c, id, m, s.workers, a.w, st, p');
    } else {
      PurgeKeepsReason(c, id, m, s.workers, a.w, st, p');
    }
  }

  lemma PurgeKeepsReason(c: Config, id: MessageId, m: Message, ws: map<WorkerId, Phase>, w: WorkerId, st: Statement,
                         p': Phase)
    requires w in ws && p'.Purging? && Hits(st, id, m, w)
    ensures ReasonOk(c, id, Touch(st, id, m, w), ws[w := p'])
  {
  }

  /** A step that leaves rows and locks alone, keeps who claimed when, and does not move the lock's owner. */
  lemma FrameKeepsReason(c: Config, id: MessageId, m: Message, m': Message, ws: map<WorkerId, Phase>,
                         ws': map<WorkerId, Phase>)
    requires ReasonOk(c, id, m, ws)
    requires m'.lock.Some? ==>
               && m'.lock == m.lock && m'.row == m.row && |m'.claims| == |m.claims|
               && (m.claims != [] ==> Last(m'.claims).at == Last(m.claims).at)
               && m.lock.value.owner in ws && m.lock.value.owner in ws'
               && ws'[m.lock.value.owner] == ws[m.lock.value.owner]
    ensures ReasonOk(c, id, m', ws')
  {
  }

  /** Every other step is such a step. */
  lemma OtherFramed(c: Config, s: State, a: Action, id: MessageId)
    requires Inv(c, s) && Enabled(c, s, a) && !IsStatement(a) && id in s.messages
    ensures var s' := Apply(c, s, a);
            && id in s'.messages
            && (s'.messages[id].lock.Some? ==>
                  && s'.messages[id].lock == s.messages[id].lock && s'.messages[id].row == s.messages[id].row
                  && |s'.messages[id].claims| == |s.messages[id].claims|
                  && (s.messages[id].claims != [] ==> Last(s'.messages[id].claims).at == Last(s.messages[id].claims).at)
                  && s.messages[id].lock.value.owner in s.workers && s.messages[id].lock.value.owner in s'.workers
                  && s'.workers[s.messages[id].lock.value.owner] == s.workers[s.messages[id].lock.value.owner])
  {
    hide HistoryInv, RowAgrees, DraftInv, EntryOk, FinishedEntry, AfterCommit;
    assert MessageOk(c, s.clock, id, s.messages[id], s.workers);
    if a.Commit? {
      assert PhaseOk(s.messages, s.clock, a.w, s.workers[a.w]);
    }
  }

  lemma NewHasNoReason(c: Config, id: MessageId, m: Message, ws: map<WorkerId, Phase>)
    requires m.lock.None?
    ensures ReasonOk(c, id, m, ws)
  {
  }

  lemma StepKeepsReasons(c: Config, s: State, a: Action)
    requires ValidConfig(c) && Inv(c, s) && ReasonsOk(c, s) && Enabled(c, s, a)
    ensures ReasonsOk(c, Apply(c, s, a))
  {
    hide Inv, ReasonOk;
    var s' := Apply(c, s, a);
    forall id | id in s'.messages ensures ReasonOk(c, id, s'.messages[id], s'.workers) {
      if id !in s.messages {
        NewHasNoReason(c, id, s'.messages[id], s'.workers);
      } else if IsStatement(a) {
        StatementKeepsReason(c, s, a, id);
      } else {
        OtherFramed(c, s, a, id);
        FrameKeepsReason(c, id, s.messages[id], s'.messages[id], s.workers, s'.workers);
      }
    }
  }

  lemma {:induction false} RunKeepsReasons(c: Config, ss: seq<State>, acts: seq<Action>, n: nat)
    requires ValidConfig(c) && IsRun(c, ss, acts) && n < |ss|
    ensures ReasonsOk(c, ss[n])
  {
    hide Inv, ReasonOk, Enabled, Apply;
    if n > 0 {
      RunKeepsReasons(c, ss, acts, n - 1);
      RunKeepsInv(c, ss, acts, n - 1);
      StepKeepsReasons(c, ss[n - 1], acts[n - 1]);
    }
  }

  // ---------------------------------------------------------------------------
  // A pending row waits
  // ---------------------------------------------------------------------------

  /** A claim of this row, made with a clock at most `skew` behind, reads a `now` of at least `bound`. */
  ghost predicate NotBefore(c: Config, clock: Time, r: Row, bound: Time) {
    (r.nextRetryAt.Some? && bound <= r.nextRetryAt.value) || bound + c.skew <= clock
  }

  /** The message is pending after k claims, and whoever claims it next does so at `bound` or later. */
  ghost predicate Waits(c: Config, s: State, id: MessageId, k: nat, bound: Time) {
    && id in s.messages
    && var m := s.messages[id];
    && |m.claims| == k && m.row.Some? && m.row.value.status.Pending? && NotBefore(c, s.clock, m.row.value, bound)
    && (m.lock.Some? ==>
          && m.lock.value.owner in s.workers && s.workers[m.lock.value.owner].Polling?
          && id in s.workers[m.lock.value.owner].taken && bound <= s.workers[m.lock.value.owner].now)
  }

  /** It still waits, or has been claimed at `bound` or later. */
  ghost predicate Held(c: Config, s: State, id: MessageId, k: nat, bound: Time) {
    Waits(c, s, id, k, bound)
    || (id in s.messages && k < |s.messages[id].claims| && bound <= s.messages[id].claims[k].at)
  }

  lemma ClaimTimesStay(c: Config, s: State, a: Action, id: MessageId)
    requires Enabled(c, s, a) && id in s.messages
    ensures id in Apply(c, s, a).messages
    ensures var h, h' := s.messages[id].claims, Apply(c, s, a).messages[id].claims;
            |h| <= |h'| && forall j | 0 <= j < |h| :: h'[j].at == h[j].at
  {
    hide Matches, Updated, Eligible;
  }

  lemma OnlyClaimsMatchPending(c: Config, clock: Time, id: MessageId, r: Row, st: Statement, p: Phase, p': Phase)
    requires RowInv(r, c.policy.maxAttempts) && r.status.Pending? && Issues(c, clock, p, st, p') && Matches(st, id, r)
    ensures st.ClaimIds?
  {
  }

  /** The worker that runs a statement has not claimed anything in this transaction, so a waiting row is not its. */
  lemma WaitingIsNotOwn(c: Config, s: State, a: Action, id: MessageId, k: nat, bound: Time)
    requires WorkersOk(s) && StatementOf(c, s, a).Some? && IsStatement(a) && Waits(c, s, id, k, bound)
    ensures !LockedBy(s.messages[id], a.w)
  {
    hide NotBefore;
    assert PhaseOk(s.messages, s.clock, a.w, s.workers[a.w]);
  }

  lemma StatementKeepsWaiting(c: Config, s: State, a: Action, id: MessageId, k: nat, bound: Time)
    requires ValidConfig(c) && Inv(c, s) && Enabled(c, s, a) && IsStatement(a) && Waits(c, s, id, k, bound)
    ensures Waits(c, Apply(c, s, a), id, k, bound)
  {
    hide HistoryInv, DraftInv, Agrees, EntryOk, FinishedEntry, RowInv, Matches, Updated;
    var st := StatementOf(c, s, a).value;
    assert MessageOk(c, s.clock, id, s.messages[id], s.workers);
    assert PhaseOk(s.messages, s.clock, a.w, s.workers[a.w]);
    WaitingIsNotOwn(c, s, a, id, k, bound);
    if Hits(st, id, s.messages[id], a.w) {
      StatementIsIssued(c, s, a);
      OnlyClaimsMatchPending(c, s.clock, id, s.messages[id].row.value, st, s.workers[a.w], Advanced(c, s, a));
      ClaimKeepsWaiting(c, s, a, id, k, bound);
    }
  }

  lemma ClaimKeepsWaiting(c: Config, s: State, a: Action, id: MessageId, k: nat, bound: Time)
    requires Enabled(c, s, a) && a.ClaimBatch? && Waits(c, s, id, k, bound) && !LockedBy(s.messages[id], a.w)
    requires Hits(StatementOf(c, s, a).value, id, s.messages[id], a.w)
    ensures Waits(c, Apply(c, s, a), id, k, bound)
  {
  }

  lemma OtherKeepsHeld(c: Config, s: State, a: Action, id: MessageId, k: nat, bound: Time)
    requires Inv(c, s) && Enabled(c, s, a) && !IsStatement(a) && Waits(c, s, id, k, bound)
    ensures Held(c, Apply(c, s, a), id, k, bound)
  {
    hide MessagesOk, EntryOk, FinishedEntry, AfterCommit;
    if a.Commit? {
      assert PhaseOk(s.messages, s.clock, a.w, s.workers[a.w]);
    }
  }

  lemma StepKeepsHeld(c: Config, s: State, a: Action, id: MessageId, k: nat, bound: Time)
    requires ValidConfig(c) && Inv(c, s) && Enabled(c, s, a) && Held(c, s, id, k, bound)
    ensures Held(c, Apply(c, s, a), id, k, bound)
  {
    hide Inv, Waits;
    if !Waits(c, s, id, k, bound) {
      ClaimTimesStay(c, s, a, id);
    } else if IsStatement(a) {
      StatementKeepsWaiting(c, s, a, id, k, bound);
    } else {
      OtherKeepsHeld(c, s, a, id, k, bound);
    }
  }

  lemma {:induction false} RunKeepsHeld(c: Config, ss: seq<State>, acts: seq<Action>, i: nat, j: nat, id: MessageId,
                                        k: nat, bound: Time)
    requires ValidConfig(c) && IsRun(c, ss, acts) && i <= j < |ss| && Held(c, ss[i], id, k, bound)
    ensures Held(c, ss[j], id, k, bound)
    decreases j - i
  {
    hide Inv, Enabled, Apply, Held;
    if i < j {
      RunKeepsHeld(c, ss, acts, i, j - 1, id, k, bound);
      RunKeepsInv(c, ss, acts, j - 1);
      StepKeepsHeld(c, ss[j - 1], acts[j - 1], id, k, bound);
    }
  }

  // ---------------------------------------------------------------------------
  // The two gaps
  // ---------------------------------------------------------------------------

  /** This commit puts a failed message back: the mark transaction of its worker leaves it pending. */
  ghost predicate RecordsFailure(s: State, a: Action, id: MessageId) {
    && a.Commit? && a.w in s.workers && s.workers[a.w].Marking? && id in s.messages
    && LockedBy(s.messages[id], a.w)
    && s.messages[id].lock.value.draft.Some? && s.messages[id].lock.value.draft.value.status.Pending?
  }

  lemma FailureMakesWait(c: Config, s: State, a: Action, id: MessageId)
    requires Inv(c, s) && ReasonsOk(c, s) && Enabled(c, s, a) && RecordsFailure(s, a, id)
    ensures var h := s.messages[id].claims;
            h != [] && Held(c, Apply(c, s, a), id, |h|, Last(h).at + Delay(c.policy, |h|))
  {
    hide Inv;
    assert ReasonOk(c, id, s.messages[id], s.workers);
  }

  /** If a recorded publish failure separates two claims, they lie at least min(base * 2^(k-1), cap) apart. */
  lemma FailureSpacing(c: Config, ss: seq<State>, acts: seq<Action>, n: nat, j: nat, id: MessageId)
    requires ValidConfig(c) && IsRun(c, ss, acts) && n < |acts| && n < j < |ss|
    requires RecordsFailure(ss[n], acts[n], id)
    requires id in ss[j].messages && |ss[n].messages[id].claims| < |ss[j].messages[id].claims|
    ensures var h, k := ss[j].messages[id].claims, |ss[n].messages[id].claims|;
            1 <= k && h[k - 1].at + Delay(c.policy, k) <= h[k].at
  {
    hide Inv, ReasonsOk, Enabled, Apply;
    var h := ss[n].messages[id].claims;
    RunKeepsInv(c, ss, acts, n);
    RunKeepsReasons(c, ss, acts, n);
    FailureMakesWait(c, ss[n], acts[n], id);
    RunKeepsHeld(c, ss, acts, n + 1, j, id, |h|, Last(h).at + Delay(c.policy, |h|));
    ClaimTimesStayInRun(c, ss, acts, n, j, id);
  }

  lemma {:induction false} ClaimTimesStayInRun(c: Config, ss: seq<State>, acts: seq<Action>, i: nat, j: nat,
                                               id: MessageId)
    requires IsRun(c, ss, acts) && i <= j < |ss| && id in ss[i].messages
    ensures id in ss[j].messages
    ensures var h, h' := ss[i].messages[id].claims, ss[j].messages[id].claims;
            |h| <= |h'| && forall k | 0 <= k < |h| :: h'[k].at == h[k].at
    decreases j - i
  {
    hide Enabled, Apply;
    if i < j {
      ClaimTimesStayInRun(c, ss, acts, i, j - 1, id);
      ClaimTimesStay(c, ss[j - 1], acts[j - 1], id);
    }
  }

  /** This commit takes an expired lease away: the poll that released it leaves the message pending, or claims it. */
  ghost predicate TakesLeaseBack(s: State, a: Action, id: MessageId) {
    && a.Commit? && a.w in s.workers && s.workers[a.w].Polling? && id in s.messages
    && LockedBy(s.messages[id], a.w) && s.messages[id].row.Some? && s.messages[id].row.value.status.Processing?
    && s.messages[id].lock.value.draft.Some?
    && (s.messages[id].lock.value.draft.value.status.Pending? || id in s.workers[a.w].taken)
  }

  lemma ExpiryMakesWait(c: Config, s: State, a: Action, id: MessageId)
    requires ValidConfig(c) && Inv(c, s) && ReasonsOk(c, s) && Enabled(c, s, a) && TakesLeaseBack(s, a, id)
    ensures var h, now := s.messages[id].claims, s.workers[a.w].now;
            h != [] && Last(h).at + c.timeout < now && Held(c, Apply(c, s, a), id, |h|, now - c.skew)
  {
    assert ReasonOk(c, id, s.messages[id], s.workers);
    assert MessageOk(c, s.clock, id, s.messages[id], s.workers);
    assert PhaseOk(s.messages, s.clock, a.w, s.workers[a.w]);
    hide Inv, DraftInv, HistoryInv;
  }

  /** If an expired lease separates two claims, they lie more than the claim timeout apart (less the skew between
      reading `now` and claiming). */
  lemma ExpirySpacing(c: Config, ss: seq<State>, acts: seq<Action>, n: nat, j: nat, id: MessageId)
    requires ValidConfig(c) && IsRun(c, ss, acts) && n < |acts| && n < j < |ss|
    requires TakesLeaseBack(ss[n], acts[n], id)
    requires id in ss[j].messages && |ss[n].messages[id].claims| < |ss[j].messages[id].claims|
    ensures var h, k := ss[j].messages[id].claims, |ss[n].messages[id].claims|;
            1 <= k && h[k - 1].at + c.timeout - c.skew < h[k].at
  {
    hide Inv, ReasonsOk, Enabled, Apply;
    var h := ss[n].messages[id].claims;
    RunKeepsInv(c, ss, acts, n);
    RunKeepsReasons(c, ss, acts, n);
    ExpiryMakesWait(c, ss[n], acts[n], id);
    RunKeepsHeld(c, ss, acts, n + 1, j, id, |h|, ss[n].workers[acts[n].w].now - c.skew);
    ClaimTimesStayInRun(c, ss, acts, n, j, id);
  }

  // ---------------------------------------------------------------------------
  // Lease recovery in a run
  // ---------------------------------------------------------------------------

  lemma PutBackIsEligible(c: Config, s: State, w: WorkerId, id: MessageId)
    requires ValidConfig(c) && Inv(c, s) && ReasonsOk(c, s)
    requires w in s.workers && s.workers[w].Polling? && s.workers[w].taken == {} && id in s.messages
    requires LockedBy(s.messages[id], w) && s.messages[id].lock.value.draft.Some?
    ensures var draft := s.messages[id].lock.value.draft.value;
            draft.status.Dead? || Eligible(draft, s.workers[w].now, c.policy.maxAttempts)
  {
    assert MessageOk(c, s.clock, id, s.messages[id], s.workers);
    assert ReasonOk(c, id, s.messages[id], s.workers);
  }

  /** In every run, once both release updates of a poll have gone through, every row the poll has touched is dead
      or within reach of the claim of the same poll. */
  lemma SameCycleRecovery(c: Config, ss: seq<State>, acts: seq<Action>, n: nat, w: WorkerId, id: MessageId)
    requires ValidConfig(c) && IsRun(c, ss, acts) && n < |ss|
    requires w in ss[n].workers && ss[n].workers[w].Polling? && ss[n].workers[w].stage == 2
    requires id in ss[n].messages && LockedBy(ss[n].messages[id], w)
    ensures ss[n].messages[id].lock.value.draft.Some?
    ensures ss[n].messages[id].lock.value.draft.value.status.Dead?
            || id in Selectable(ss[n], w, ss[n].workers[w].now, c.policy.maxAttempts)
  {
    RunKeepsInv(c, ss, acts, n);
    RunKeepsReasons(c, ss, acts, n);
    assert PhaseOk(ss[n].messages, ss[n].clock, w, ss[n].workers[w]);
    assert ReasonOk(c, id, ss[n].messages[id], ss[n].workers);
    PutBackIsEligible(c, ss[n], w, id);
  }
}
